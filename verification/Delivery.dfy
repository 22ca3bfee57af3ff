// Bounded delivery: a blob that is queued at a node reaches it within a known number
// of rounds, as long as one of its peers keeps the blob live and can be called.
module Delivery {
  import opened LittleEndian
  import opened Store
  import opened SyncQueue
  import opened FetchTask
  import opened Network
  import opened NodeInvariant
  import opened Safety
  import opened Theorems
  import Modular

  /** The parties: `node` has queued `id`, and its peer `holder` has it. */
  datatype Goal = Goal(node: NodeId, holder: NodeId, id: Uuid)

  /** The holder's row is live, and the node has it as a peer. */
  predicate Supplied(s: Network, g: Goal) {
    && g.node in s.nodes && g.holder in s.nodes
    && g.holder in s.nodes[g.node].peers
    && IsLive(s.nodes[g.holder].db, g.id)
  }

  /** The node's call to the holder for the blob fails: the one failure that is ruled out. */
  predicate HolderFails(s: Network, e: Event, g: Goal) {
    && e == Event(g.node, Local(CallFails(g.id)))
    && g.node in s.nodes && g.id in s.nodes[g.node].tasks
    && s.nodes[g.node].tasks[g.id].phase.Calling? && s.nodes[g.node].tasks[g.id].phase.peer == g.holder
  }

  /** In this phase the task cannot end without a row for its blob. */
  predicate Bound(phase: Phase, holder: NodeId) {
    match phase
    case Spawned => true
    case Checking(rest) => holder in rest
    case Marking(_) => false
    case Trying(rest) => holder in rest
    case Calling(peer, rest) => peer == holder || holder in rest
    case Serving(_, _, _) => true
    case Answered(_, rest, answer) => answer.Found? || holder in rest
    case Storing(_, _, _) => true
    case _ => false
  }

  /** `entries` wait for `pops` rounds to have begun since the blob was at position `k`. */
  predicate Waits(node: Node, id: Uuid, k: nat, maxSyncs: nat, pops: nat) {
    var taken := pops * maxSyncs;
    taken <= k && k - taken < |node.queue.entries| && node.queue.entries[k - taken].id == id
  }

  predicate Fetching(node: Node, g: Goal) {
    g.id in node.tasks && Bound(node.tasks[g.id].phase, g.holder) && node.pc.Joining?
  }

  /** The progress made when `pops` rounds have begun: waiting, being fetched, or there. */
  predicate Progress(node: Node, g: Goal, k: nat, maxSyncs: nat, pops: nat)
    requires maxSyncs > 0
  {
    || Waits(node, g.id, k, maxSyncs, pops)
    || (Fetching(node, g) && pops == k / maxSyncs + 1)
    || g.id in node.db.blobs
  }

  /** A round of `n` begins: a poll that finds something queued. */
  predicate Begins(s: Network, e: Event, n: NodeId) {
    e == Event(n, Local(Poll)) && n in s.nodes && s.nodes[n].queue.entries != []
  }

  // ---- One step ---------------------------------------------------------------------

  /** A step that pops nothing and does not lose the task. */
  ghost predicate Steady(node: Node, node': Node, g: Goal) {
    && node.queue.entries <= node'.queue.entries
    && (g.id in node.db.blobs ==> g.id in node'.db.blobs)
    && (Fetching(node, g) ==> Fetching(node', g) || g.id in node'.db.blobs)
  }

  lemma SteadyProgress(node: Node, node': Node, g: Goal, k: nat, maxSyncs: nat, pops: nat)
    requires maxSyncs > 0 && Steady(node, node', g) && Progress(node, g, k, maxSyncs, pops)
    ensures Progress(node', g, k, maxSyncs, pops)
  {
  }

  lemma BatchQuotient(k: nat, maxSyncs: nat, pops: nat)
    requires maxSyncs > 0 && pops * maxSyncs <= k < pops * maxSyncs + maxSyncs
    ensures k / maxSyncs == pops
  {
    var d := k / maxSyncs - pops;
    Modular.RemainderUnique(k, maxSyncs, pops, k - pops * maxSyncs);
    assert maxSyncs * d == 0 by {
      assert maxSyncs * d == maxSyncs * (k / maxSyncs) - maxSyncs * pops;
    }
    Modular.MultipleOutside(maxSyncs, d);
  }

  /** A poll takes the blob when its turn has come, and otherwise moves it up by a full batch. */
  lemma PollProgress(node: Node, g: Goal, k: nat, maxSyncs: nat, pops: nat)
    requires maxSyncs > 0 && node.pc.Polling? && Progress(node, g, k, maxSyncs, pops)
    ensures Progress(PollQueue(node, maxSyncs), g, k, maxSyncs, if node.queue.entries == [] then pops else pops + 1)
  {
    var node' := PollQueue(node, maxSyncs);
    if Waits(node, g.id, k, maxSyncs, pops) {
      var at, n := k - pops * maxSyncs, BatchSize(node.queue, maxSyncs);
      if at < n {
        var batch := Batch(node.queue, maxSyncs);
        assert batch[at] == node.queue.entries[at] && batch[at] in batch;
        assert g.id in Ids(batch);
        BatchQuotient(k, maxSyncs, pops);
        assert Fetching(node', g);
      } else {
        assert (pops + 1) * maxSyncs == pops * maxSyncs + maxSyncs;
        assert node'.queue.entries[at - n] == node.queue.entries[at];
        assert Waits(node', g.id, k, maxSyncs, pops + 1);
      }
    }
  }

  /** The statement of a bound task leaves it bound, or the row is there. */
  lemma AdvanceBound(sha: Bytes -> Hash, minted: map<Uuid, Mint>, db: Database, id: Uuid, task: Task, holder: NodeId)
    requires IdsOk(minted) && TaskOk(minted, db.blobs, id, task)
    requires !Waiting(task.phase) && Bound(task.phase, holder)
    ensures var (db', task') := Advance(sha, db, id, task);
            Bound(task'.phase, holder) || id in db'.blobs
  {
    if task.phase.Trying? {
      assert task.phase.rest == [task.phase.rest[0]] + task.phase.rest[1..];
    }
  }

  lemma TaskStepSteady(sha: Bytes -> Hash, minted: map<Uuid, Mint>, node: Node, id: Uuid, g: Goal)
    requires IdsOk(minted) && TasksOk(minted, node.db.blobs, node.tasks)
    requires id in node.tasks && !Waiting(node.tasks[id].phase)
    ensures Steady(node, AdvanceTask(sha, node, id), g)
  {
    assert TaskOk(minted, node.db.blobs, id, node.tasks[id]);
    AdvanceRows(sha, minted, node.db, id, node.tasks[id]);
    if Fetching(node, g) && id == g.id {
      AdvanceBound(sha, minted, node.db, id, node.tasks[id], g.holder);
    }
  }

  /** A task that is given its next phase by another party. */
  lemma PhaseSteady(node: Node, id: Uuid, phase: Phase, g: Goal)
    requires id in node.tasks
    requires id == g.id && Bound(node.tasks[id].phase, g.holder) ==> Bound(phase, g.holder)
    ensures Steady(node, SetPhase(node, id, phase), g)
  {
  }

  lemma EnqueueSteady(node: Node, e: Entry, g: Goal)
    ensures Steady(node, node.(queue := Enqueue(node.queue, e)), g)
  {
  }

  lemma RunOpSteady(node: Node, op: Op, g: Goal)
    ensures Steady(node, RunOp(node, op), g)
  {
    if op.Requeue? {
      RequeueNeverInserts(node.db, op.id);
    }
  }

  /** Every step of the node other than a poll keeps the progress. */
  lemma LocalSteady(cfg: Config, maxSyncs: nat, minted: map<Uuid, Mint>, node: Node, step: LocalStep, g: Goal)
    requires IdsOk(minted) && TasksOk(minted, node.db.blobs, node.tasks)
    requires StepNode(cfg, maxSyncs, node, step).Some? && !step.Poll?
    requires g.holder in node.peers
    requires !(step == CallFails(g.id) && node.tasks[g.id].phase.peer == g.holder)
    ensures Steady(node, StepNode(cfg, maxSyncs, node, step).value, g)
  {
    match step
    case Continue(op) => RunOpSteady(node.(ops := node.ops - multiset{op}), op, g);
    case SnapshotPeers(id, order) =>
      assert g.holder in (set peer | peer in order);
      PhaseSteady(node, id, Checking(order), g);
    case TaskStep(id) => TaskStepSteady(cfg.sha, minted, node, id, g);
    case CallFails(id) =>
      var Calling(peer, rest) := node.tasks[id].phase;
      PhaseSteady(node, id, Answered(peer, rest, CallError), g);
    case _ => QuietSteady(cfg, maxSyncs, node, step, g);
  }

  /** The steps that touch neither the rows nor any task in progress. */
  lemma QuietSteady(cfg: Config, maxSyncs: nat, node: Node, step: LocalStep, g: Goal)
    requires StepNode(cfg, maxSyncs, node, step).Some?
    requires !step.Continue? && !step.Poll? && !step.SnapshotPeers? && !step.TaskStep? && !step.CallFails?
    ensures Steady(node, StepNode(cfg, maxSyncs, node, step).value, g)
  {
  }

  /** A task fetches only blobs whose rows can be read, so the holder replies with its row. */
  lemma HolderReplies(minted: map<Uuid, Mint>, db: Database, id: Uuid)
    requires RowsOk(minted, db.blobs) && IsReadable(minted, id) && IsLive(db, id)
    ensures Reply(db, id).Found?
  {
  }

  lemma LookUpSteady(s: Network, n: NodeId, id: Uuid, g: Goal)
    requires n in s.nodes && Select(s, n, id).Some? && Supplied(s, g)
    requires RowsOk(s.minted, s.nodes[g.holder].db.blobs) && IsReadable(s.minted, id)
    ensures Steady(s.nodes[n], Select(s, n, id).value.nodes[n], g)
  {
    var Calling(peer, rest) := s.nodes[n].tasks[id].phase;
    if id == g.id && peer == g.holder {
      HolderReplies(s.minted, s.nodes[peer].db, id);
    }
    PhaseSteady(s.nodes[n], id, LookUp(s.nodes[peer].db, id, peer, rest), g);
  }

  lemma MarkSteady(s: Network, n: NodeId, id: Uuid, g: Goal)
    requires n in s.nodes && Mark(s, n, id).Some? && g.node in s.nodes
    ensures Steady(s.nodes[g.node], Mark(s, n, id).value.nodes[g.node], g)
  {
  }

  lemma CheckSteady(s: Network, n: NodeId, g: Goal)
    requires n in s.nodes && Check(s, n).Some? && g.node in s.nodes
    ensures Steady(s.nodes[g.node], Check(s, n).value.nodes[g.node], g)
  {
  }

  lemma AcceptSteady(s: Network, n: NodeId, g: Goal)
    requires n in s.nodes && Accept(s, n).Some? && g.node in s.nodes
    ensures Steady(s.nodes[g.node], Accept(s, n).value.nodes[g.node], g)
  {
    EnqueueSteady(s.nodes[g.node], s.nodes[n].pc.a.current, g);
  }

  lemma AddSteady(cfg: Config, s: Network, n: NodeId, id: Uuid, input: NewBlob, randoms: seq<nat>, g: Goal)
    requires n in s.nodes && Add(cfg, s, n, id, input, randoms).Some? && g.node in s.nodes
    ensures Steady(s.nodes[g.node], Add(cfg, s, n, id, input, randoms).value.nodes[g.node], g)
  {
    AddUnfolds(cfg, s, n, id, input, randoms);
  }

  /** What the steps of tasks rely on, of their own node and of the one they call. */
  predicate Sound(s: Network) {
    && IdsOk(s.minted)
    && forall n | n in s.nodes ::
         RowsOk(s.minted, s.nodes[n].db.blobs) && TasksOk(s.minted, s.nodes[n].db.blobs, s.nodes[n].tasks)
  }

  lemma TaskReadable(s: Network, n: NodeId, id: Uuid)
    requires Sound(s) && n in s.nodes && id in s.nodes[n].tasks
    ensures IsReadable(s.minted, id)
  {
    assert TaskOk(s.minted, s.nodes[n].db.blobs, id, s.nodes[n].tasks[id]);
  }

  lemma OwnStepSteady(cfg: Config, s: Network, step: LocalStep, g: Goal)
    requires Sound(s) && g.node in s.nodes && g.holder in s.nodes[g.node].peers && step != Poll
    requires StepNode(cfg, cfg.maxSyncs(g.node), s.nodes[g.node], step).Some?
    requires !HolderFails(s, Event(g.node, Local(step)), g)
    ensures Steady(s.nodes[g.node], StepNode(cfg, cfg.maxSyncs(g.node), s.nodes[g.node], step).value, g)
  {
    LocalSteady(cfg, cfg.maxSyncs(g.node), s.minted, s.nodes[g.node], step, g);
  }

  /** Whatever happens anywhere, other than a poll of the node, keeps the progress. */
  lemma OtherSteady(cfg: Config, s: Network, e: Event, s': Network, g: Goal)
    requires Sound(s) && Next(cfg, s, e, s') && Supplied(s, g) && !HolderFails(s, e, g)
    requires e != Event(g.node, Local(Poll))
    ensures g.node in s'.nodes && Steady(s.nodes[g.node], s'.nodes[g.node], g)
  {
    match e.step
    case Local(step) =>
      if e.node == g.node {
        OwnStepSteady(cfg, s, step, g);
      } else {
        assert s'.nodes[g.node] == s.nodes[g.node];
      }
    case AddBlob(id, input, randoms) =>
      AddSteady(cfg, s, e.node, id, input, randoms, g);
      AddUnfolds(cfg, s, e.node, id, input, randoms);
    case ServeSelect(id) =>
      if e.node == g.node {
        TaskReadable(s, e.node, id);
        LookUpSteady(s, e.node, id, g);
      } else {
        assert s'.nodes[g.node] == s.nodes[g.node];
      }
    case ServeMark(id) => MarkSteady(s, e.node, id, g);
    case OfferCheck => CheckSteady(s, e.node, g);
    case OfferEnqueue => AcceptSteady(s, e.node, g);
  }

  lemma PollNext(cfg: Config, s: Network, s': Network, g: Goal, k: nat, pops: nat)
    requires Next(cfg, s, Event(g.node, Local(Poll)), s')
    requires g.node in s.nodes && cfg.maxSyncs(g.node) > 0
    requires Progress(s.nodes[g.node], g, k, cfg.maxSyncs(g.node), pops)
    ensures g.node in s'.nodes
    ensures Progress(s'.nodes[g.node], g, k, cfg.maxSyncs(g.node),
                     if s.nodes[g.node].queue.entries != [] then pops + 1 else pops)
  {
    PollProgress(s.nodes[g.node], g, k, cfg.maxSyncs(g.node), pops);
  }

  lemma NextProgress(cfg: Config, s: Network, e: Event, s': Network, g: Goal, k: nat, pops: nat)
    requires Sound(s) && Next(cfg, s, e, s') && Supplied(s, g) && !HolderFails(s, e, g)
    requires cfg.maxSyncs(g.node) > 0 && Progress(s.nodes[g.node], g, k, cfg.maxSyncs(g.node), pops)
    ensures g.node in s'.nodes
    ensures Progress(s'.nodes[g.node], g, k, cfg.maxSyncs(g.node), if Begins(s, e, g.node) then pops + 1 else pops)
  {
    if e == Event(g.node, Local(Poll)) {
      PollNext(cfg, s, s', g, k, pops);
    } else {
      OtherSteady(cfg, s, e, s', g);
      SteadyProgress(s.nodes[g.node], s'.nodes[g.node], g, k, cfg.maxSyncs(g.node), pops);
    }
  }

  // ---- Whole runs ---------------------------------------------------------------------

  /** The rounds of `n` begun within the first `i` events. */
  function Begun(states: seq<Network>, events: seq<Event>, n: NodeId, i: nat): nat
    requires |states| == |events| + 1 && i <= |events|
  {
    if i == 0 then 0
    else Begun(states, events, n, i - 1) + (if Begins(states[i - 1], events[i - 1], n) then 1 else 0)
  }

  /** The rounds of `n` ended within the first `i` events. */
  function Ended(events: seq<Event>, n: NodeId, i: nat): nat
    requires i <= |events|
  {
    if i == 0 then 0
    else Ended(events, n, i - 1) + (if events[i - 1] == Event(n, Local(Joined)) then 1 else 0)
  }

  function InRound(s: Network, n: NodeId): nat {
    if n in s.nodes && s.nodes[n].pc.Joining? then 1 else 0
  }

  lemma LocalRound(cfg: Config, maxSyncs: nat, node: Node, step: LocalStep)
    requires maxSyncs > 0 && StepNode(cfg, maxSyncs, node, step).Some?
    ensures var node' := StepNode(cfg, maxSyncs, node, step).value;
            (if node'.pc.Joining? then 1 else 0) + (if step.Joined? then 1 else 0) ==
            (if node.pc.Joining? then 1 else 0) + if step.Poll? && node.queue.entries != [] then 1 else 0
  {
  }

  lemma RoundStep(cfg: Config, s: Network, e: Event, s': Network, n: NodeId)
    requires Next(cfg, s, e, s') && n in s.nodes && cfg.maxSyncs(n) > 0
    ensures InRound(s', n) + (if e == Event(n, Local(Joined)) then 1 else 0) ==
            InRound(s, n) + if Begins(s, e, n) then 1 else 0
    ensures n in s'.nodes
  {
    match e.step
    case Local(step) =>
      if e.node == n {
        LocalRound(cfg, cfg.maxSyncs(n), s.nodes[n], step);
      }
    case AddBlob(id, input, randoms) => AddUnfolds(cfg, s, e.node, id, input, randoms);
    case _ =>
  }

  /** Each step of a run begins or ends a round of `n` as it counts. */
  ghost predicate RoundsCounted(states: seq<Network>, events: seq<Event>, n: NodeId)
    requires |states| == |events| + 1
  {
    forall i | 0 <= i < |events| :: RoundCounted(states[i], events[i], states[i + 1], n)
  }

  predicate RoundCounted(s: Network, e: Event, s': Network, n: NodeId) {
    n in s.nodes ==>
      && n in s'.nodes
      && InRound(s', n) + (if e == Event(n, Local(Joined)) then 1 else 0) ==
         InRound(s, n) + if Begins(s, e, n) then 1 else 0
  }

  lemma RunCounts(cfg: Config, states: seq<Network>, events: seq<Event>, n: NodeId)
    requires IsRun(cfg, states, events) && cfg.maxSyncs(n) > 0
    ensures RoundsCounted(states, events, n)
  {
    forall i | 0 <= i < |events|
      ensures RoundCounted(states[i], events[i], states[i + 1], n)
    {
      if n in states[i].nodes {
        RoundStep(cfg, states[i], events[i], states[i + 1], n);
      }
    }
  }

  lemma {:induction false} CountedAlternate(states: seq<Network>, events: seq<Event>, n: NodeId, i: nat)
    requires |states| == |events| + 1 && RoundsCounted(states, events, n)
    requires i <= |events| && n in states[0].nodes
    ensures n in states[i].nodes
    ensures Begun(states, events, n, i) + InRound(states[0], n) == Ended(events, n, i) + InRound(states[i], n)
    decreases i
  {
    if i > 0 {
      CountedAlternate(states, events, n, i - 1);
      assert RoundCounted(states[i - 1], events[i - 1], states[i], n);
    }
  }

  /** Rounds begin and end in turn: at any time those begun are those ended, give or take the one under way. */
  lemma RoundsAlternate(cfg: Config, states: seq<Network>, events: seq<Event>, n: NodeId, i: nat)
    requires IsRun(cfg, states, events) && i <= |events| && n in states[0].nodes && cfg.maxSyncs(n) > 0
    ensures n in states[i].nodes
    ensures Begun(states, events, n, i) + InRound(states[0], n) == Ended(events, n, i) + InRound(states[i], n)
  {
    RunCounts(cfg, states, events, n);
    CountedAlternate(states, events, n, i);
  }

  /** Throughout the run the holder has the blob, and the node's calls to it for the blob do not fail. */
  ghost predicate Kept(states: seq<Network>, events: seq<Event>, g: Goal)
    requires |states| == |events| + 1
  {
    && (forall i | 0 <= i < |states| :: Supplied(states[i], g))
    && (forall i | 0 <= i < |events| :: !HolderFails(states[i], events[i], g))
  }

  lemma InvSound(cfg: Config, s: Network)
    requires Inv(cfg, s)
    ensures Sound(s)
  {
    forall n | n in s.nodes
      ensures RowsOk(s.minted, s.nodes[n].db.blobs) && TasksOk(s.minted, s.nodes[n].db.blobs, s.nodes[n].tasks)
    {
      TablesOk(cfg, s, n);
    }
  }

  lemma RunSound(cfg: Config, states: seq<Network>, events: seq<Event>)
    requires IsRun(cfg, states, events) && Reachable(cfg, states[0])
    ensures forall i | 0 <= i < |states| :: Sound(states[i])
  {
    ReachableInv(cfg, states[0]);
    forall i | 0 <= i < |states|
      ensures Sound(states[i])
    {
      RunKeeps(cfg, states, events, 0, i);
      InvSound(cfg, states[i]);
    }
  }

  /** Each step of a run takes the progress on, counting the rounds that begin. */
  ghost predicate Advances(cfg: Config, s: Network, e: Event, s': Network, g: Goal, k: nat) {
    && g.node in s.nodes && g.node in s'.nodes && cfg.maxSyncs(g.node) > 0
    && forall pops: nat | Progress(s.nodes[g.node], g, k, cfg.maxSyncs(g.node), pops) ::
         Progress(s'.nodes[g.node], g, k, cfg.maxSyncs(g.node), if Begins(s, e, g.node) then pops + 1 else pops)
  }

  ghost predicate AdvancesThroughout(cfg: Config, states: seq<Network>, events: seq<Event>, g: Goal, k: nat)
    requires |states| == |events| + 1
  {
    forall i | 0 <= i < |events| :: Advances(cfg, states[i], events[i], states[i + 1], g, k)
  }

  lemma NextAdvances(cfg: Config, s: Network, e: Event, s': Network, g: Goal, k: nat)
    requires Sound(s) && Next(cfg, s, e, s') && Supplied(s, g) && Supplied(s', g)
    requires !HolderFails(s, e, g) && cfg.maxSyncs(g.node) > 0
    ensures Advances(cfg, s, e, s', g, k)
  {
    forall pops: nat | Progress(s.nodes[g.node], g, k, cfg.maxSyncs(g.node), pops)
      ensures Progress(s'.nodes[g.node], g, k, cfg.maxSyncs(g.node), if Begins(s, e, g.node) then pops + 1 else pops)
    {
      NextProgress(cfg, s, e, s', g, k, pops);
    }
  }

  lemma RunAdvances(cfg: Config, states: seq<Network>, events: seq<Event>, g: Goal, k: nat)
    requires IsRun(cfg, states, events) && Reachable(cfg, states[0]) && Kept(states, events, g)
    requires g.node in states[0].nodes && cfg.maxSyncs(g.node) > 0
    ensures AdvancesThroughout(cfg, states, events, g, k)
  {
    RunSound(cfg, states, events);
    forall i | 0 <= i < |events|
      ensures Advances(cfg, states[i], events[i], states[i + 1], g, k)
    {
      assert Sound(states[i]) && Next(cfg, states[i], events[i], states[i + 1]);
      NextAdvances(cfg, states[i], events[i], states[i + 1], g, k);
    }
  }

  lemma {:induction false} RunProgress(cfg: Config, states: seq<Network>, events: seq<Event>, g: Goal, k: nat, i: nat)
    requires |states| == |events| + 1 && AdvancesThroughout(cfg, states, events, g, k)
    requires i <= |events| && cfg.maxSyncs(g.node) > 0
    requires g.node in states[0].nodes && Progress(states[0].nodes[g.node], g, k, cfg.maxSyncs(g.node), 0)
    ensures g.node in states[i].nodes
    ensures Progress(states[i].nodes[g.node], g, k, cfg.maxSyncs(g.node), Begun(states, events, g.node, i))
    decreases i
  {
    if i > 0 {
      RunProgress(cfg, states, events, g, k, i - 1);
      assert Advances(cfg, states[i - 1], events[i - 1], states[i], g, k);
    }
  }

  /** An entry at position `k` has been popped once `k / maxSyncs + 1` rounds have begun. */
  lemma PoppedInTime(cfg: Config, states: seq<Network>, events: seq<Event>, g: Goal, k: nat)
    requires IsRun(cfg, states, events) && Reachable(cfg, states[0]) && Kept(states, events, g)
    requires g.node in states[0].nodes && cfg.maxSyncs(g.node) > 0
    requires k < |states[0].nodes[g.node].queue.entries| && states[0].nodes[g.node].queue.entries[k].id == g.id
    requires Begun(states, events, g.node, |events|) >= k / cfg.maxSyncs(g.node) + 1
    ensures g.node in states[|events|].nodes
    ensures var node := states[|events|].nodes[g.node]; Fetching(node, g) || g.id in node.db.blobs
  {
    RunAdvances(cfg, states, events, g, k);
    RunProgress(cfg, states, events, g, k, |events|);
    NotWaiting(states[|events|].nodes[g.node], g.id, k, cfg.maxSyncs(g.node), Begun(states, events, g.node, |events|));
  }

  lemma NotWaiting(node: Node, id: Uuid, k: nat, maxSyncs: nat, pops: nat)
    requires maxSyncs > 0 && pops >= k / maxSyncs + 1
    ensures !Waits(node, id, k, maxSyncs, pops)
  {
    assert (pops - k / maxSyncs - 1) * maxSyncs >= 0;
    assert k == maxSyncs * (k / maxSyncs) + k % maxSyncs;
  }

  /**
   * Once `k / maxSyncs + 1` rounds have ended, not counting one that was under way, the node
   * holds a row for the blob: whatever is queued meanwhile and however other peers fail.
   */
  lemma BoundedDelivery(cfg: Config, states: seq<Network>, events: seq<Event>, g: Goal, k: nat)
    requires IsRun(cfg, states, events) && Reachable(cfg, states[0]) && Kept(states, events, g)
    requires g.node in states[0].nodes && cfg.maxSyncs(g.node) > 0
    requires k < |states[0].nodes[g.node].queue.entries| && states[0].nodes[g.node].queue.entries[k].id == g.id
    requires Ended(events, g.node, |events|) >= k / cfg.maxSyncs(g.node) + 1 + InRound(states[0], g.node)
    ensures g.node in states[|events|].nodes && g.id in states[|events|].nodes[g.node].db.blobs
  {
    RunAdvances(cfg, states, events, g, k);
    RunProgress(cfg, states, events, g, k, |events|);
    RoundsAlternate(cfg, states, events, g.node, |events|);
    Delivered(states[|events|].nodes[g.node], g, k, cfg.maxSyncs(g.node),
              Begun(states, events, g.node, |events|), Ended(events, g.node, |events|), InRound(states[0], g.node));
  }

  /** Of the kinds of progress, only having the row is left when that many rounds have ended. */
  lemma Delivered(node: Node, g: Goal, k: nat, maxSyncs: nat, begun: nat, ended: nat, underWay: nat)
    requires maxSyncs > 0 && Progress(node, g, k, maxSyncs, begun)
    requires begun + underWay == ended + if node.pc.Joining? then 1 else 0
    requires ended >= k / maxSyncs + 1 + underWay
    ensures g.id in node.db.blobs
  {
    NotWaiting(node, g.id, k, maxSyncs, begun);
  }

  /** An accepted announcement leaves the blob queued or already being fetched. */
  lemma AcceptedIsInProgress(cfg: Config, s: Network, n: NodeId, s': Network)
    requires Reachable(cfg, s) && Next(cfg, s, Event(n, OfferEnqueue), s')
    ensures var Offered(a, to) := s.nodes[n].pc;
            && to in s'.nodes
            && (a.current.id in s'.nodes[to].tasks ||
                exists k | 0 <= k < |s'.nodes[to].queue.entries| :: s'.nodes[to].queue.entries[k].id == a.current.id)
  {
    var Offered(a, to) := s.nodes[n].pc;
    QueueDiscipline(cfg, s, to);
    Enqueued(s.nodes[to].queue, s.nodes[to].tasks.Keys, a.current);
  }

  lemma Enqueued(q: Queue, running: set<Uuid>, e: Entry)
    requires QueueInv(q, running)
    ensures var entries := Enqueue(q, e).entries;
            e.id in running || exists k | 0 <= k < |entries| :: entries[k].id == e.id
  {
    EnqueueKeeps(q, running, e);
    var entries := Enqueue(q, e).entries;
    if e.id !in running {
      var other :| other in entries && other.id == e.id;
      var k :| 0 <= k < |entries| && entries[k] == other;
    }
  }
}

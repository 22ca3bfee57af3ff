// What becomes of an announcement that was accepted.
module Announcements {
  import opened Store
  import opened SyncQueue
  import opened FetchTask
  import opened Network
  import opened NodeInvariant
  import opened Safety
  import opened Theorems
  import opened Deletions
  import opened Delivery
  import Modular

  lemma NextPeers(cfg: Config, s: Network, e: Event, s': Network, n: NodeId)
    requires Next(cfg, s, e, s') && n in s.nodes
    ensures n in s'.nodes && s.nodes[n].peers <= s'.nodes[n].peers
  {
    match e.step
    case AddBlob(id, input, randoms) => AddUnfolds(cfg, s, e.node, id, input, randoms);
    case _ =>
  }

  predicate Knows(s: Network, n: NodeId, peer: NodeId) {
    n in s.nodes && peer in s.nodes[n].peers
  }

  /** Peers are never forgotten. */
  lemma PeersKept(cfg: Config, states: seq<Network>, events: seq<Event>, i: nat, n: NodeId, peer: NodeId)
    requires IsRun(cfg, states, events) && i <= |events| && Knows(states[0], n, peer)
    ensures Knows(states[i], n, peer)
  {
    forall k | 0 <= k < i && Knows(states[k], n, peer)
      ensures Knows(states[k + 1], n, peer)
    {
      NextPeers(cfg, states[k], events[k], states[k + 1], n);
    }
    RunInduction(states, 0, i, s => Knows(s, n, peer));
  }

  /** What has to be avoided for delivery: the holder deletes the blob, or a call to it for the blob fails. */
  ghost predicate Undisrupted(states: seq<Network>, events: seq<Event>, g: Goal)
    requires |states| == |events| + 1
  {
    && NoDeletion(events, 0, |events|, g.holder, g.id)
    && (forall i | 0 <= i < |events| :: !HolderFails(states[i], events[i], g))
  }

  lemma StaysSupplied(cfg: Config, states: seq<Network>, events: seq<Event>, g: Goal)
    requires IsRun(cfg, states, events) && Supplied(states[0], g) && Undisrupted(states, events, g)
    ensures Kept(states, events, g)
  {
    forall i | 0 <= i < |states|
      ensures Supplied(states[i], g)
    {
      PeersKept(cfg, states, events, i, g.node, g.holder);
      assert NoDeletion(events, 0, i, g.holder, g.id);
      Undisturbed(cfg, states, events, 0, i, g.holder, g.id);
    }
  }

  lemma {:induction false} ReachableNext(cfg: Config, s: Network, e: Event, s': Network)
    requires Reachable(cfg, s) && Next(cfg, s, e, s')
    ensures Reachable(cfg, s')
  {
    var states: seq<Network>, events: seq<Event> :|
      IsRun(cfg, states, events) && Init(cfg, states[0]) && states[|events|] == s;
    var states', events' := states + [s'], events + [e];
    forall i | 0 <= i < |events'|
      ensures Next(cfg, states'[i], events'[i], states'[i + 1])
    {
      if i < |events| {
        assert Next(cfg, states[i], events[i], states[i + 1]);
      }
    }
    assert IsRun(cfg, states', events') && states'[|events'|] == s';
  }

  lemma QuotientMonotone(k: nat, length: nat, m: nat)
    requires k <= length && m > 0
    ensures k / m <= length / m
  {
    var d := k / m - length / m;
    Modular.MultipleOutside(m, d);
    assert m * d == m * (k / m) - m * (length / m);
  }

  // ---- A task already running ------------------------------------------------------------

  /**
   * The blob can still be got: it is there, or no task for it is running, or the one that is
   * running will come to the holder.
   */
  predicate Obtainable(s: Network, g: Goal)
    requires g.node in s.nodes
  {
    var node := s.nodes[g.node];
    g.id in node.db.blobs || (g.id in node.tasks ==> Bound(node.tasks[g.id].phase, g.holder))
  }

  /** Being fetched in a round that has not ended, or there. */
  predicate Secured(s: Network, events: seq<Event>, g: Goal, i: nat)
    requires i <= |events|
  {
    g.node in s.nodes &&
    (g.id in s.nodes[g.node].db.blobs || (Fetching(s.nodes[g.node], g) && Ended(events, g.node, i) == 0))
  }

  lemma SecuredStep(cfg: Config, s: Network, s': Network, events: seq<Event>, g: Goal, i: nat)
    requires i < |events| && Sound(s) && Next(cfg, s, events[i], s') && Supplied(s, g) && !HolderFails(s, events[i], g)
    requires Secured(s, events, g, i)
    ensures Secured(s', events, g, i + 1)
  {
    if events[i] == Event(g.node, Local(Poll)) {
      assert s'.nodes[g.node].db == s.nodes[g.node].db;
    } else {
      OtherSteady(cfg, s, events[i], s', g);
    }
  }

  ghost predicate StepsSecure(states: seq<Network>, events: seq<Event>, g: Goal)
    requires |states| == |events| + 1
  {
    forall k | 0 <= k < |events| && Secured(states[k], events, g, k) :: Secured(states[k + 1], events, g, k + 1)
  }

  lemma RunSteps(cfg: Config, states: seq<Network>, events: seq<Event>, g: Goal)
    requires IsRun(cfg, states, events) && Reachable(cfg, states[0]) && Kept(states, events, g)
    ensures StepsSecure(states, events, g)
  {
    RunSound(cfg, states, events);
    forall k | 0 <= k < |events| && Secured(states[k], events, g, k)
      ensures Secured(states[k + 1], events, g, k + 1)
    {
      SecuredStep(cfg, states[k], states[k + 1], events, g, k);
    }
  }

  lemma {:induction false} RunSecured(states: seq<Network>, events: seq<Event>, g: Goal, i: nat)
    requires |states| == |events| + 1 && i <= |events| && StepsSecure(states, events, g)
    requires Secured(states[0], events, g, 0)
    ensures Secured(states[i], events, g, i)
    decreases i
  {
    if i > 0 {
      RunSecured(states, events, g, i - 1);
    }
  }

  lemma RunningIsFetching(cfg: Config, s: Network, g: Goal)
    requires Reachable(cfg, s) && g.node in s.nodes && g.id in s.nodes[g.node].tasks
    requires Bound(s.nodes[g.node].tasks[g.id].phase, g.holder)
    ensures Fetching(s.nodes[g.node], g)
  {
    ReachableInv(cfg, s);
    assert NodeInv(cfg.maxSyncs(g.node), s.minted, s.nodes[g.node]);
  }

  /** The state in which the node has just accepted the holder's announcement. */
  ghost predicate JustAccepted(cfg: Config, before: Network, s: Network, g: Goal) {
    && Reachable(cfg, before) && Next(cfg, before, Event(g.holder, OfferEnqueue), s)
    && before.nodes[g.holder].pc.to == g.node && before.nodes[g.holder].pc.a.current.id == g.id
    && Supplied(s, g) && cfg.maxSyncs(g.node) > 0
  }

  lemma SecuredAtStart(cfg: Config, s: Network, events: seq<Event>, g: Goal)
    requires Reachable(cfg, s) && g.node in s.nodes && Obtainable(s, g)
    requires g.id in s.nodes[g.node].db.blobs || g.id in s.nodes[g.node].tasks
    ensures Secured(s, events, g, 0)
  {
    if g.id !in s.nodes[g.node].db.blobs {
      RunningIsFetching(cfg, s, g);
    }
  }

  lemma RunStaysSecured(cfg: Config, states: seq<Network>, events: seq<Event>, g: Goal)
    requires IsRun(cfg, states, events) && Reachable(cfg, states[0]) && Kept(states, events, g)
    requires Secured(states[0], events, g, 0)
    ensures Secured(states[|events|], events, g, |events|)
  {
    RunSteps(cfg, states, events, g);
    RunSecured(states, events, g, |events|);
  }

  /** A task that will come to the holder leaves the row behind when its round ends. */
  lemma SecuredIsDelivered(cfg: Config, states: seq<Network>, events: seq<Event>, g: Goal)
    requires IsRun(cfg, states, events) && Reachable(cfg, states[0]) && Kept(states, events, g)
    requires Secured(states[0], events, g, 0) && Ended(events, g.node, |events|) >= 1
    ensures HasRow(states[|events|].nodes, g.node, g.id)
  {
    RunStaysSecured(cfg, states, events, g);
  }

  /** The number of rounds that are enough for whatever is queued. */
  function EnoughRounds(cfg: Config, s: Network, n: NodeId): (rounds: nat)
    requires n in s.nodes && cfg.maxSyncs(n) > 0
    ensures rounds >= 1
  {
    |s.nodes[n].queue.entries| / cfg.maxSyncs(n) + 1 + InRound(s, n)
  }

  predicate QueuedAt(s: Network, g: Goal, k: nat) {
    g.node in s.nodes && k < |s.nodes[g.node].queue.entries| && s.nodes[g.node].queue.entries[k].id == g.id
  }

  lemma QueuedIsDelivered(cfg: Config, states: seq<Network>, events: seq<Event>, g: Goal, k: nat)
    requires IsRun(cfg, states, events) && Reachable(cfg, states[0]) && Kept(states, events, g)
    requires QueuedAt(states[0], g, k) && cfg.maxSyncs(g.node) > 0
    requires Ended(events, g.node, |events|) >= EnoughRounds(cfg, states[0], g.node)
    ensures HasRow(states[|events|].nodes, g.node, g.id)
  {
    QuotientMonotone(k, |states[0].nodes[g.node].queue.entries|, cfg.maxSyncs(g.node));
    BoundedDelivery(cfg, states, events, g, k);
  }

  /** An accepted announcement, unless a task is running or the row is there, has its place in the queue. */
  lemma AcceptedIsQueued(cfg: Config, before: Network, s: Network, g: Goal) returns (k: nat)
    requires JustAccepted(cfg, before, s, g) && g.id !in s.nodes[g.node].tasks
    ensures QueuedAt(s, g, k)
  {
    AcceptedIsInProgress(cfg, before, g.holder, s);
    k :| 0 <= k < |s.nodes[g.node].queue.entries| && s.nodes[g.node].queue.entries[k].id == g.id;
  }

  lemma AcceptedReachable(cfg: Config, before: Network, s: Network, g: Goal)
    requires JustAccepted(cfg, before, s, g)
    ensures Reachable(cfg, s)
  {
    ReachableNext(cfg, before, Event(g.holder, OfferEnqueue), s);
  }

  /**
   * An announcement that is accepted leads to delivery: once enough rounds have ended for the
   * queue as it then was, the node holds a row for the blob, unless the holder deletes it, the
   * node's call to the holder for it fails, or the node was fetching it without the holder.
   */
  lemma AnnouncedIsDelivered(cfg: Config, before: Network, states: seq<Network>, events: seq<Event>, g: Goal)
    requires IsRun(cfg, states, events) && JustAccepted(cfg, before, states[0], g)
    requires Obtainable(states[0], g) && Undisrupted(states, events, g)
    requires Ended(events, g.node, |events|) >= EnoughRounds(cfg, states[0], g.node)
    ensures HasRow(states[|events|].nodes, g.node, g.id)
  {
    AcceptedReachable(cfg, before, states[0], g);
    StaysSupplied(cfg, states, events, g);
    if g.id in states[0].nodes[g.node].db.blobs || g.id in states[0].nodes[g.node].tasks {
      SecuredAtStart(cfg, states[0], events, g);
      SecuredIsDelivered(cfg, states, events, g);
    } else {
      var k := AcceptedIsQueued(cfg, before, states[0], g);
      QueuedIsDelivered(cfg, states, events, g, k);
    }
  }

  // ---- When an announcement is lost -------------------------------------------------------

  /** The node neither has the blob nor will look for it. */
  predicate Lost(s: Network, g: Goal) {
    && g.node in s.nodes
    && g.id !in s.nodes[g.node].db.blobs
    && g.id !in s.nodes[g.node].tasks
    && g.id !in Ids(s.nodes[g.node].queue.entries)
  }

  lemma ProgressNotLost(s: Network, g: Goal, k: nat, maxSyncs: nat, pops: nat)
    requires g.node in s.nodes && maxSyncs > 0 && Progress(s.nodes[g.node], g, k, maxSyncs, pops)
    ensures !Lost(s, g)
  {
    var entries := s.nodes[g.node].queue.entries;
    if Waits(s.nodes[g.node], g.id, k, maxSyncs, pops) {
      assert entries[k - pops * maxSyncs] in entries;
    }
  }

  lemma QueuedNotLost(cfg: Config, states: seq<Network>, events: seq<Event>, g: Goal, k: nat)
    requires IsRun(cfg, states, events) && Reachable(cfg, states[0]) && Kept(states, events, g)
    requires QueuedAt(states[0], g, k) && cfg.maxSyncs(g.node) > 0
    ensures !Lost(states[|events|], g)
  {
    RunAdvances(cfg, states, events, g, k);
    RunProgress(cfg, states, events, g, k, |events|);
    ProgressNotLost(states[|events|], g, k, cfg.maxSyncs(g.node), Begun(states, events, g.node, |events|));
  }

  lemma ObtainableNotLost(cfg: Config, before: Network, states: seq<Network>, events: seq<Event>, g: Goal)
    requires IsRun(cfg, states, events) && JustAccepted(cfg, before, states[0], g)
    requires Obtainable(states[0], g) && Undisrupted(states, events, g)
    ensures !Lost(states[|events|], g)
  {
    AcceptedReachable(cfg, before, states[0], g);
    StaysSupplied(cfg, states, events, g);
    if g.id in states[0].nodes[g.node].db.blobs || g.id in states[0].nodes[g.node].tasks {
      SecuredAtStart(cfg, states[0], events, g);
      RunStaysSecured(cfg, states, events, g);
    } else {
      var k := AcceptedIsQueued(cfg, before, states[0], g);
      QueuedNotLost(cfg, states, events, g, k);
    }
  }

  /** A task that will not come to the holder and has found nothing so far. */
  predicate Doomed(node: Node, g: Goal) {
    g.id in node.tasks && !Bound(node.tasks[g.id].phase, g.holder) && g.id !in node.db.blobs
  }

  /** Its next step when the peers it does try cannot be reached. */
  function DoomedStep(node: Node, id: Uuid): LocalStep
    requires id in node.tasks
  {
    match node.tasks[id].phase
    case Calling(_, _) => CallFails(id)
    case Finished(_) => TaskDone(id)
    case _ => TaskStep(id)
  }

  /** The step leaves the task doomed and nearer to its end, or ends it with nothing found. */
  lemma DoomedStepWorsens(cfg: Config, maxSyncs: nat, minted: map<Uuid, Mint>, node: Node, g: Goal)
    requires Doomed(node, g) && TaskOk(minted, node.db.blobs, g.id, node.tasks[g.id])
    ensures var step := DoomedStep(node, g.id);
            && StepNode(cfg, maxSyncs, node, step).Some?
            && !(step == CallFails(g.id) && node.tasks[g.id].phase.peer == g.holder)
            && var node' := StepNode(cfg, maxSyncs, node, step).value;
               if step.TaskDone? then node'.db == node.db && g.id !in node'.tasks && node'.queue.entries == node.queue.entries
               else Doomed(node', g) && StepsLeft(node'.tasks[g.id].phase) < StepsLeft(node.tasks[g.id].phase)
  {
    var phase := node.tasks[g.id].phase;
    if phase.Trying? && phase.rest != [] {
      assert phase.rest == [phase.rest[0]] + phase.rest[1..];
    }
  }

  /** `states` continue from `s`, with nothing done that would disrupt the delivery. */
  ghost predicate Continues(cfg: Config, s: Network, states: seq<Network>, events: seq<Event>, g: Goal) {
    IsRun(cfg, states, events) && states[0] == s && Undisrupted(states, events, g)
  }

  lemma ContinuesFrom(cfg: Config, s: Network, e: Event, states: seq<Network>, events: seq<Event>, g: Goal)
    requires |states| == |events| + 1 && Next(cfg, s, e, states[0])
    requires Continues(cfg, states[0], states, events, g)
    requires !HolderFails(s, e, g) && !IsDeletion(e, g.holder, g.id)
    ensures Continues(cfg, s, [s] + states, [e] + events, g)
  {
    var states', events' := [s] + states, [e] + events;
    forall i | 0 <= i < |events'|
      ensures Next(cfg, states'[i], events'[i], states'[i + 1])
      ensures !HolderFails(states'[i], events'[i], g) && !IsDeletion(events'[i], g.holder, g.id)
    {
      if i > 0 {
        assert Next(cfg, states[i - 1], events[i - 1], states[i]);
        assert !IsDeletion(events[i - 1], g.holder, g.id);
      }
    }
  }

  lemma ContinuesOnce(cfg: Config, s: Network, e: Event, s': Network, g: Goal)
    requires Next(cfg, s, e, s') && !HolderFails(s, e, g) && !IsDeletion(e, g.holder, g.id)
    ensures Continues(cfg, s, [s, s'], [e], g)
  {
  }

  ghost predicate DoomedState(cfg: Config, s: Network, g: Goal) {
    Inv(cfg, s) && g.node in s.nodes && Doomed(s.nodes[g.node], g)
  }

  function Remaining(s: Network, g: Goal): nat {
    if g.node in s.nodes && g.id in s.nodes[g.node].tasks then StepsLeft(s.nodes[g.node].tasks[g.id].phase) else 0
  }

  /** A step that disrupts nothing, to a state in which the blob is lost or nearer to it. */
  ghost predicate Worsens(cfg: Config, s: Network, e: Event, s': Network, g: Goal) {
    && Next(cfg, s, e, s') && !HolderFails(s, e, g) && !IsDeletion(e, g.holder, g.id)
    && (Lost(s', g) || (DoomedState(cfg, s', g) && Remaining(s', g) < Remaining(s, g)))
  }

  /** A doomed task runs to its end, and the blob is lost. */
  lemma {:induction false} DoomedIsLost(cfg: Config, s: Network, g: Goal) returns (states: seq<Network>, events: seq<Event>)
    requires DoomedState(cfg, s, g)
    ensures Continues(cfg, s, states, events, g) && Lost(states[|events|], g)
    decreases Remaining(s, g)
  {
    var e, s' := DoomedNext(cfg, s, g);
    if Lost(s', g) {
      ContinuesOnce(cfg, s, e, s', g);
      states, events := [s, s'], [e];
    } else {
      var later, rest := DoomedIsLost(cfg, s', g);
      states, events := LostLater(cfg, s, e, later, rest, g);
    }
  }

  lemma LostLater(cfg: Config, s: Network, e: Event, later: seq<Network>, rest: seq<Event>, g: Goal)
    returns (states: seq<Network>, events: seq<Event>)
    requires |later| == |rest| + 1 && Next(cfg, s, e, later[0])
    requires Continues(cfg, later[0], later, rest, g) && Lost(later[|rest|], g)
    requires !HolderFails(s, e, g) && !IsDeletion(e, g.holder, g.id)
    ensures Continues(cfg, s, states, events, g) && Lost(states[|events|], g)
  {
    ContinuesFrom(cfg, s, e, later, rest, g);
    states, events := [s] + later, [e] + rest;
  }

  lemma DoomedNext(cfg: Config, s: Network, g: Goal) returns (e: Event, s': Network)
    requires DoomedState(cfg, s, g)
    ensures Worsens(cfg, s, e, s', g)
  {
    var node, step := s.nodes[g.node], DoomedStep(s.nodes[g.node], g.id);
    TablesOk(cfg, s, g.node);
    assert TaskOk(s.minted, node.db.blobs, g.id, node.tasks[g.id]);
    DoomedStepWorsens(cfg, cfg.maxSyncs(g.node), s.minted, node, g);
    RunningNotQueued(cfg, s, g);
    e := Event(g.node, Local(step));
    s' := Put(s, g.node, StepNode(cfg, cfg.maxSyncs(g.node), node, step).value);
    LocalKeeps(cfg, s, g.node, step);
    DoomedPut(cfg, s, step, g);
  }

  lemma DoomedPut(cfg: Config, s: Network, step: LocalStep, g: Goal)
    requires g.node in s.nodes && Doomed(s.nodes[g.node], g) && step == DoomedStep(s.nodes[g.node], g.id)
    requires StepNode(cfg, cfg.maxSyncs(g.node), s.nodes[g.node], step).Some?
    requires !(step == CallFails(g.id) && s.nodes[g.node].tasks[g.id].phase.peer == g.holder)
    ensures var (e, s') := (Event(g.node, Local(step)),
                            Put(s, g.node, StepNode(cfg, cfg.maxSyncs(g.node), s.nodes[g.node], step).value));
            Next(cfg, s, e, s') && !HolderFails(s, e, g) && !IsDeletion(e, g.holder, g.id)
  {
  }

  lemma RunningNotQueued(cfg: Config, s: Network, g: Goal)
    requires NodesOk(cfg, s) && g.node in s.nodes && g.id in s.nodes[g.node].tasks
    ensures g.id !in Ids(s.nodes[g.node].queue.entries)
  {
    assert NodeInv(cfg.maxSyncs(g.node), s.minted, s.nodes[g.node]);
  }

  lemma NotObtainableDoomed(s: Network, g: Goal)
    requires g.node in s.nodes
    ensures Obtainable(s, g) <==> !Doomed(s.nodes[g.node], g)
  {
  }

  /**
   * An accepted announcement can be lost if and only if the node was already fetching the blob
   * in a task that will not come to the holder, and does not have it.
   */
  lemma AnnouncementNotLost(cfg: Config, before: Network, s: Network, g: Goal)
    requires JustAccepted(cfg, before, s, g)
    ensures Obtainable(s, g) <==>
            forall states, events | Continues(cfg, s, states, events, g) :: !Lost(states[|events|], g)
  {
    if Obtainable(s, g) {
      forall states, events | Continues(cfg, s, states, events, g)
        ensures !Lost(states[|events|], g)
      {
        ObtainableNotLost(cfg, before, states, events, g);
      }
    } else {
      AcceptedReachable(cfg, before, s, g);
      ReachableInv(cfg, s);
      NotObtainableDoomed(s, g);
      assert DoomedState(cfg, s, g);
      var states, events := DoomedIsLost(cfg, s, g);
      assert Continues(cfg, s, states, events, g);
    }
  }
}

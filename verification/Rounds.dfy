// A round that has begun can always end: left to itself, every task comes to its end.
module Rounds {
  import opened LittleEndian
  import opened Store
  import opened FetchTask
  import opened Network
  import opened Safety
  import opened Theorems

  /** A step of a task of `n`, or an answer to it. */
  predicate OwnStep(e: Event, n: NodeId) {
    && e.node == n
    && match e.step
       case Local(step) => step.SnapshotPeers? || step.TaskStep? || step.CallFails? || step.TaskDone?
       case ServeSelect(_) => true
       case ServeMark(_) => true
       case _ => false
  }

  lemma {:induction false} ListPeers(peers: set<NodeId>) returns (order: seq<NodeId>)
    ensures Lists(order, peers)
    decreases |peers|
  {
    if peers == {} {
      order := [];
    } else {
      var peer :| peer in peers;
      var rest := ListPeers(peers - {peer});
      forall other | other in rest
        ensures other != peer
      {
        assert other in (set p | p in rest);
      }
      order := [peer] + rest;
      assert (set p | p in order) == {peer} + (set p | p in rest);
    }
  }

  /** Tasks other than that for `id` are as they were; that one is gone, or nearer to its end. */
  predicate Nearer(node: Node, node': Node, id: Uuid)
    requires id in node.tasks
  {
    && node'.pc == node.pc
    && (node'.tasks.Keys == node.tasks.Keys - {id} ||
        (node'.tasks.Keys == node.tasks.Keys &&
         if node.tasks[id].phase.Spawned? then !node'.tasks[id].phase.Spawned?
         else !node'.tasks[id].phase.Spawned? && StepsLeft(node'.tasks[id].phase) < StepsLeft(node.tasks[id].phase)))
  }

  lemma AdvanceNearer(sha: Bytes -> Hash, db: Database, id: Uuid, task: Task)
    requires !Waiting(task.phase)
    ensures var phase := Advance(sha, db, id, task).1.phase;
            !phase.Spawned? && StepsLeft(phase) < StepsLeft(task.phase)
  {
  }

  lemma LocalNearer(cfg: Config, maxSyncs: nat, node: Node, id: Uuid, order: seq<NodeId>)
    requires id in node.tasks && Lists(order, node.peers)
    requires !node.tasks[id].phase.Serving?
    ensures var phase := node.tasks[id].phase;
            var step := if phase.Spawned? then SnapshotPeers(id, order) else if phase.Calling? then CallFails(id)
                        else if phase.Finished? then TaskDone(id) else TaskStep(id);
            StepNode(cfg, maxSyncs, node, step).Some? && Nearer(node, StepNode(cfg, maxSyncs, node, step).value, id)
  {
    if !Waiting(node.tasks[id].phase) {
      AdvanceNearer(cfg.sha, node.db, id, node.tasks[id]);
    }
  }

  lemma SelectNearer(s: Network, n: NodeId, id: Uuid)
    requires n in s.nodes && id in s.nodes[n].tasks && s.nodes[n].tasks[id].phase.Calling?
    requires s.nodes[n].tasks[id].phase.peer in s.nodes
    ensures Select(s, n, id).Some? && n in Select(s, n, id).value.nodes
    ensures Nearer(s.nodes[n], Select(s, n, id).value.nodes[n], id)
  {
  }

  lemma MarkNearer(s: Network, n: NodeId, id: Uuid)
    requires n in s.nodes && id in s.nodes[n].tasks && s.nodes[n].tasks[id].phase.Serving?
    requires s.nodes[n].tasks[id].phase.peer in s.nodes
    ensures Mark(s, n, id).Some? && n in Mark(s, n, id).value.nodes
    ensures Nearer(s.nodes[n], Mark(s, n, id).value.nodes[n], id)
  {
  }

  ghost predicate Proceeds(cfg: Config, s: Network, e: Event, s': Network, n: NodeId, id: Uuid)
    requires n in s.nodes && id in s.nodes[n].tasks
  {
    Next(cfg, s, e, s') && OwnStep(e, n) && n in s'.nodes && Nearer(s.nodes[n], s'.nodes[n], id)
  }

  lemma LocalProceeds(cfg: Config, s: Network, n: NodeId, id: Uuid) returns (e: Event, s': Network)
    requires n in s.nodes && id in s.nodes[n].tasks && !s.nodes[n].tasks[id].phase.Serving?
    ensures Proceeds(cfg, s, e, s', n, id)
  {
    var order := ListPeers(s.nodes[n].peers);
    var phase := s.nodes[n].tasks[id].phase;
    var step := if phase.Spawned? then SnapshotPeers(id, order) else if phase.Calling? then CallFails(id)
                else if phase.Finished? then TaskDone(id) else TaskStep(id);
    LocalNearer(cfg, cfg.maxSyncs(n), s.nodes[n], id, order);
    e := Event(n, Local(step));
    s' := Put(s, n, StepNode(cfg, cfg.maxSyncs(n), s.nodes[n], step).value);
  }

  /** A step of the task is always possible, and brings it nearer to its end; a call fails only if nobody is there. */
  lemma TaskProceeds(cfg: Config, s: Network, n: NodeId, id: Uuid) returns (e: Event, s': Network)
    requires SourcesOk(s.nodes) && n in s.nodes && id in s.nodes[n].tasks
    ensures Proceeds(cfg, s, e, s', n, id)
  {
    var phase := s.nodes[n].tasks[id].phase;
    if phase.Serving? {
      ServedFrom(s.nodes, n, id);
      MarkNearer(s, n, id);
      e, s' := Event(n, ServeMark(id)), Mark(s, n, id).value;
    } else if phase.Calling? && phase.peer in s.nodes {
      SelectNearer(s, n, id);
      e, s' := Event(n, ServeSelect(id)), Select(s, n, id).value;
    } else {
      e, s' := LocalProceeds(cfg, s, n, id);
    }
  }

  /** `states` continue from `s` with steps of the tasks of `n` and answers to them only. */
  ghost predicate OwnRun(cfg: Config, s: Network, n: NodeId, states: seq<Network>, events: seq<Event>) {
    && IsRun(cfg, states, events) && states[0] == s
    && forall i | 0 <= i < |events| :: OwnStep(events[i], n)
  }

  lemma OwnRunFrom(cfg: Config, s: Network, e: Event, n: NodeId, states: seq<Network>, events: seq<Event>)
    requires |states| == |events| + 1 && Next(cfg, s, e, states[0]) && OwnStep(e, n)
    requires OwnRun(cfg, states[0], n, states, events)
    ensures OwnRun(cfg, s, n, [s] + states, [e] + events)
  {
    var states', events' := [s] + states, [e] + events;
    forall i | 0 <= i < |events'|
      ensures Next(cfg, states'[i], events'[i], states'[i + 1]) && OwnStep(events'[i], n)
    {
      if i > 0 {
        assert Next(cfg, states[i - 1], events[i - 1], states[i]);
      }
    }
  }

  /** The node is joining a round none of whose tasks is left. */
  predicate AllDone(s: Network, n: NodeId) {
    n in s.nodes && s.nodes[n].pc.Joining? && s.nodes[n].tasks == map[]
  }

  /** Whether the task has still to list its peers, and how many steps it has to take after that. */
  function ToGo(s: Network, n: NodeId, id: Uuid): (nat, nat) {
    if n !in s.nodes || id !in s.nodes[n].tasks then (0, 0)
    else (if s.nodes[n].tasks[id].phase.Spawned? then 1 else 0, StepsLeft(s.nodes[n].tasks[id].phase))
  }

  /** The tasks of `n` are finished one after the other, beginning with that for `id`. */
  lemma {:induction false} TasksEnd(cfg: Config, s: Network, n: NodeId, id: Uuid)
    returns (states: seq<Network>, events: seq<Event>)
    requires Inv(cfg, s) && n in s.nodes && s.nodes[n].pc.Joining?
    requires id in s.nodes[n].tasks || s.nodes[n].tasks == map[]
    ensures OwnRun(cfg, s, n, states, events) && AllDone(states[|events|], n)
    decreases |s.nodes[n].tasks.Keys|, ToGo(s, n, id).0, ToGo(s, n, id).1
  {
    if s.nodes[n].tasks == map[] {
      states, events := [s], [];
    } else {
      var e, s', id' := NextTask(cfg, s, n, id);
      var later, rest := TasksEnd(cfg, s', n, id');
      states, events := EndLater(cfg, s, e, n, later, rest);
    }
  }

  lemma EndLater(cfg: Config, s: Network, e: Event, n: NodeId, later: seq<Network>, rest: seq<Event>)
    returns (states: seq<Network>, events: seq<Event>)
    requires |later| == |rest| + 1 && Next(cfg, s, e, later[0]) && OwnStep(e, n)
    requires OwnRun(cfg, later[0], n, later, rest) && AllDone(later[|rest|], n)
    ensures OwnRun(cfg, s, n, states, events) && AllDone(states[|events|], n)
  {
    OwnRunFrom(cfg, s, e, n, later, rest);
    states, events := [s] + later, [e] + rest;
  }

  /** One step further, and the task to go on with. */
  lemma NextTask(cfg: Config, s: Network, n: NodeId, id: Uuid) returns (e: Event, s': Network, id': Uuid)
    requires Inv(cfg, s) && n in s.nodes && s.nodes[n].pc.Joining? && id in s.nodes[n].tasks
    ensures Next(cfg, s, e, s') && OwnStep(e, n) && Inv(cfg, s') && n in s'.nodes && s'.nodes[n].pc.Joining?
    ensures id' in s'.nodes[n].tasks || s'.nodes[n].tasks == map[]
    ensures |s'.nodes[n].tasks.Keys| < |s.nodes[n].tasks.Keys| ||
            (id' == id && |s'.nodes[n].tasks.Keys| == |s.nodes[n].tasks.Keys| &&
             (ToGo(s', n, id).0 < ToGo(s, n, id).0 ||
              (ToGo(s', n, id).0 == ToGo(s, n, id).0 && ToGo(s', n, id).1 < ToGo(s, n, id).1)))
  {
    e, s' := TaskProceeds(cfg, s, n, id);
    NextKeeps(cfg, s, e, s');
    id' := AnotherTask(s.nodes[n], s'.nodes[n], id);
  }

  lemma AnotherTask(node: Node, node': Node, id: Uuid) returns (id': Uuid)
    requires id in node.tasks && Nearer(node, node', id)
    ensures id' in node'.tasks || node'.tasks == map[]
    ensures |node'.tasks.Keys| < |node.tasks.Keys| || (id' == id && node'.tasks.Keys == node.tasks.Keys)
  {
    id' := id;
    if id !in node'.tasks && node'.tasks != map[] {
      id' :| id' in node'.tasks;
    }
  }

  /**
   * From every reachable state in which a round is under way, steps of its tasks and the answers
   * to them lead to its end.
   */
  lemma RoundCanEnd(cfg: Config, s: Network, n: NodeId) returns (states: seq<Network>, events: seq<Event>)
    requires Reachable(cfg, s) && n in s.nodes && s.nodes[n].pc.Joining?
    ensures OwnRun(cfg, s, n, states, events) && AllDone(states[|events|], n)
    ensures StepNode(cfg, cfg.maxSyncs(n), states[|events|].nodes[n], Joined).Some?
  {
    ReachableInv(cfg, s);
    var id: Uuid := 0;
    if s.nodes[n].tasks != map[] {
      id :| id in s.nodes[n].tasks;
    }
    states, events := TasksEnd(cfg, s, n, id);
    DoneCanJoin(cfg, states[|events|], n);
  }

  lemma DoneCanJoin(cfg: Config, s: Network, n: NodeId)
    requires AllDone(s, n)
    ensures StepNode(cfg, cfg.maxSyncs(n), s.nodes[n], Joined).Some?
  {
  }
}

// Runs of two nodes in which the protocol does not do what it is meant to: an announcement
// that is accepted and lost, a completed entry that is undone, a deletion that fails at its end.
module Scenario {
  import opened Wrappers
  import opened Keypair
  import opened ElGamal
  import opened Codec
  import opened Store
  import opened SyncQueue
  import opened FetchTask
  import opened Network
  import opened Safety
  import opened Statuses
  import opened Delivery
  import opened Announcements
  import opened Oversized

  // ---- The parties -----------------------------------------------------------------------

  /** The node on which the blob is added, the other one, and the blob. */
  const ALICE: NodeId := 1
  const BOB: NodeId := 2
  const ID: Uuid := 7

  predicate TwoNodes(cfg: Config) {
    cfg.nodes == {ALICE, BOB} && cfg.maxSyncs(ALICE) > 0 && cfg.maxSyncs(BOB) > 0
  }

  function World(a: Node, b: Node, m: Mint): Network {
    Network(map[ALICE := a, BOB := b], map[ID := m])
  }

  /** What is known of the blob that Alice adds. */
  predicate Added(m: Mint) {
    m.meta.id == ID && Readable(MintedRow(m))
  }

  function EntryFor(m: Mint): Entry {
    Entry(ID, m.meta.hash)
  }

  type Marks = map<Key, SyncStatus>

  /** Alice, who has added the blob and knows Bob. */
  function Alice(m: Mint, status: Marks, queue: Queue, tasks: map<Uuid, Task>, pc: LoopPc): Node {
    Node(Database(map[ID := MintedRow(m)], status), {BOB}, queue, tasks, pc, multiset{})
  }

  /** Bob, who has no rows. */
  function Bob(status: Marks, peers: set<NodeId>, queue: Queue, tasks: map<Uuid, Task>, pc: LoopPc): Node {
    Node(Database(map[], status), peers, queue, tasks, pc, multiset{})
  }

  /** The queue when the blob waits, when its task runs, and when that is over. */
  function Queued(m: Mint): Queue {
    Queue([EntryFor(m)], {ID}, [EntryFor(m)], [])
  }

  function Taken(m: Mint): Queue {
    Queue([], {ID}, [EntryFor(m)], [EntryFor(m)])
  }

  function Over(m: Mint): Queue {
    Queue([], {}, [EntryFor(m)], [EntryFor(m)])
  }

  function Running(m: Mint, phase: Phase): map<Uuid, Task> {
    map[ID := Task(m.meta.hash, false, phase)]
  }

  const BOB_PENDING: Marks := map[Key(ID, BOB) := Pending]

  // ---- Steps of the one and the other ------------------------------------------------------

  lemma AliceSteps(cfg: Config, a: Node, b: Node, m: Mint, step: LocalStep, a': Node)
    requires TwoNodes(cfg) && Reachable(cfg, World(a, b, m))
    requires StepNode(cfg, cfg.maxSyncs(ALICE), a, step) == Some(a')
    ensures Reachable(cfg, World(a', b, m))
    ensures Next(cfg, World(a, b, m), Event(ALICE, Local(step)), World(a', b, m))
  {
    var s := World(a, b, m);
    assert Put(s, ALICE, a') == World(a', b, m);
    ReachableNext(cfg, s, Event(ALICE, Local(step)), World(a', b, m));
  }

  lemma BobSteps(cfg: Config, a: Node, b: Node, m: Mint, step: LocalStep, b': Node)
    requires TwoNodes(cfg) && Reachable(cfg, World(a, b, m))
    requires StepNode(cfg, cfg.maxSyncs(BOB), b, step) == Some(b')
    ensures Reachable(cfg, World(a, b', m))
  {
    var s := World(a, b, m);
    assert Put(s, BOB, b') == World(a, b', m);
    ReachableNext(cfg, s, Event(BOB, Local(step)), World(a, b', m));
  }

  lemma OneLister(peer: NodeId)
    ensures Lists([peer], {peer}) && Lists([], {})
  {
    assert (set p | p in [peer]) == {peer};
  }

  lemma OnlyBobPending(m: Mint)
    requires Added(m)
    ensures PendingPeers(Database(map[ID := MintedRow(m)], BOB_PENDING), ID) == {BOB}
    ensures ListsShareable(Database(map[ID := MintedRow(m)], BOB_PENDING), [EntryFor(m)])
  {
    var db := Database(map[ID := MintedRow(m)], BOB_PENDING);
    assert Key(ID, BOB) in db.status;
    assert PendingPeers(db, ID) == {BOB};
    assert Shareable(db) == {ID};
  }

  /** A step of the one task of a node. */
  lemma TaskMoves(cfg: Config, maxSyncs: nat, node: Node, m: Mint, phase: Phase, db: Database, phase': Phase)
    requires node.tasks == Running(m, phase) && !Waiting(phase)
    requires Advance(cfg.sha, node.db, ID, Task(m.meta.hash, false, phase)) == (db, Task(m.meta.hash, false, phase'))
    ensures StepNode(cfg, maxSyncs, node, TaskStep(ID)) == Some(node.(db := db, tasks := Running(m, phase')))
  {
    RunningMoves(m, phase, phase');
  }

  lemma RunningMoves(m: Mint, phase: Phase, phase': Phase)
    ensures Running(m, phase)[ID := Task(m.meta.hash, false, phase')] == Running(m, phase')
  {
  }

  lemma TaskSnapshots(cfg: Config, maxSyncs: nat, node: Node, m: Mint, order: seq<NodeId>)
    requires node.tasks == Running(m, Spawned) && Lists(order, node.peers)
    ensures StepNode(cfg, maxSyncs, node, SnapshotPeers(ID, order)) == Some(node.(tasks := Running(m, Checking(order))))
  {
    RunningMoves(m, Spawned, Checking(order));
  }

  // ---- Alice adds the blob and comes to announce it ----------------------------------------

  function Offer(m: Mint): Announcer {
    Announcer({BOB}, [], EntryFor(m), [])
  }

  /** Alice, about to offer the blob to Bob, or offering it, or with his answer. */
  function AliceAt(m: Mint, pc: LoopPc): Node {
    Alice(m, BOB_PENDING, Over(m), map[], pc)
  }

  lemma AliceBegins(cfg: Config, input: NewBlob, randoms: seq<nat>) returns (m: Mint)
    requires TwoNodes(cfg) && |randoms| == ChunkCount(|input.text|)
    requires TryFrom(input.privateKey).Ok? && |input.text| <= SAFE_LENGTH
    ensures Added(m) && m.text == input.text && m.meta.ownerId == input.owner
    ensures Reachable(cfg, World(Alice(m, map[], Queued(m), map[], Polling), NEW_NODE, m))
  {
    var s0 := Network(map[ALICE := NEW_NODE, BOB := NEW_NODE], map[]);
    StartReachable(cfg, s0);
    var s1 := Network(map[ALICE := NEW_NODE.(peers := {BOB}), BOB := NEW_NODE], map[]);
    AliceMeetsBob(cfg, s0, s1);
    m := MintBlob(cfg.sha, ALICE, ID, input, randoms).value;
    LongTextUnreadable(cfg.sha, ALICE, ID, input, randoms);
    MintedId(cfg.sha, ALICE, ID, input, randoms);
    AliceAdds(cfg, s1, input, randoms, m);
  }

  lemma AliceMeetsBob(cfg: Config, s: Network, s': Network)
    requires TwoNodes(cfg) && Reachable(cfg, s) && s == Network(map[ALICE := NEW_NODE, BOB := NEW_NODE], map[])
    requires s' == Network(map[ALICE := NEW_NODE.(peers := {BOB}), BOB := NEW_NODE], map[])
    ensures Reachable(cfg, s')
  {
    var met := NEW_NODE.(peers := {BOB});
    assert {} + {BOB} == {BOB};
    assert StepNode(cfg, cfg.maxSyncs(ALICE), NEW_NODE, Handshake(BOB)) == Some(met);
    assert Put(s, ALICE, met) == s';
    ReachableNext(cfg, s, Event(ALICE, Local(Handshake(BOB))), s');
  }

  lemma StartReachable(cfg: Config, s: Network)
    requires TwoNodes(cfg) && s == Network(map[ALICE := NEW_NODE, BOB := NEW_NODE], map[])
    ensures Reachable(cfg, s)
  {
    assert s.nodes == map n | n in cfg.nodes :: NEW_NODE;
    var states, events: seq<Event> := [s], [];
    assert IsRun(cfg, states, events) && Init(cfg, states[0]) && states[|events|] == s;
  }

  lemma AliceAdds(cfg: Config, s: Network, input: NewBlob, randoms: seq<nat>, m: Mint)
    requires TwoNodes(cfg) && Reachable(cfg, s) && |randoms| == ChunkCount(|input.text|)
    requires s == Network(map[ALICE := NEW_NODE.(peers := {BOB}), BOB := NEW_NODE], map[])
    requires MintBlob(cfg.sha, ALICE, ID, input, randoms) == Some(m) && Added(m)
    ensures Reachable(cfg, World(Alice(m, map[], Queued(m), map[], Polling), NEW_NODE, m))
  {
    var row := AliceWithRow(m);
    assert multiset{} + AfterInsert(m) == multiset{EnqueueAdded(EntryFor(m))};
    AliceInserts(cfg, s, input, randoms, m);
    ReachableNext(cfg, s, Event(ALICE, AddBlob(ID, input, randoms)), World(row, NEW_NODE, m));
    AliceQueues(cfg, row, m);
  }

  function AliceWithRow(m: Mint): Node {
    Node(Database(map[ID := MintedRow(m)], map[]), {BOB}, EMPTY, map[], Polling, multiset{EnqueueAdded(EntryFor(m))})
  }

  lemma AliceInserts(cfg: Config, s: Network, input: NewBlob, randoms: seq<nat>, m: Mint)
    requires |randoms| == ChunkCount(|input.text|)
    requires s == Network(map[ALICE := NEW_NODE.(peers := {BOB}), BOB := NEW_NODE], map[])
    requires MintBlob(cfg.sha, ALICE, ID, input, randoms) == Some(m) && Added(m)
    ensures Add(cfg, s, ALICE, ID, input, randoms) == Some(World(AliceWithRow(m), NEW_NODE, m))
  {
    AddFolds(cfg, s, ALICE, ID, input, randoms);
    AliceRow(s, m);
  }

  lemma AliceRow(s: Network, m: Mint)
    requires s == Network(map[ALICE := NEW_NODE.(peers := {BOB}), BOB := NEW_NODE], map[]) && Added(m)
    ensures Put(s, ALICE, WithRow(s.nodes[ALICE], m)).(minted := s.minted[ID := m]) == World(AliceWithRow(m), NEW_NODE, m)
  {
    var node := s.nodes[ALICE];
    assert node.ops + AfterInsert(m) == multiset{EnqueueAdded(EntryFor(m))};
    assert node.db.blobs[ID := MintedRow(m)] == map[ID := MintedRow(m)];
    assert WithRow(node, m) == AliceWithRow(m);
  }

  lemma AliceQueues(cfg: Config, row: Node, m: Mint)
    requires TwoNodes(cfg) && Reachable(cfg, World(row, NEW_NODE, m))
    requires row == AliceWithRow(m)
    ensures Reachable(cfg, World(Alice(m, map[], Queued(m), map[], Polling), NEW_NODE, m))
  {
    var op := EnqueueAdded(EntryFor(m));
    assert multiset{op} - multiset{op} == multiset{};
    assert Enqueue(EMPTY, EntryFor(m)) == Queued(m);
    AliceSteps(cfg, row, NEW_NODE, m, Continue(op), Alice(m, map[], Queued(m), map[], Polling));
  }

  /** Her task finds the blob there, marks Bob as pending, and ends. */
  lemma AliceMarks(cfg: Config, m: Mint)
    requires TwoNodes(cfg) && Added(m)
    requires Reachable(cfg, World(Alice(m, map[], Queued(m), map[], Polling), NEW_NODE, m))
    ensures Reachable(cfg, World(Alice(m, BOB_PENDING, Taken(m), Running(m, Marking([])), Joining), NEW_NODE, m))
  {
    OneLister(BOB);
    var a0 := Alice(m, map[], Queued(m), map[], Polling);
    var a1 := Alice(m, map[], Taken(m), Running(m, Spawned), Joining);
    PollsOne(cfg.maxSyncs(ALICE), a0, m);
    AliceSteps(cfg, a0, NEW_NODE, m, Poll, a1);
    var a2 := Alice(m, map[], Taken(m), Running(m, Checking([BOB])), Joining);
    TaskSnapshots(cfg, cfg.maxSyncs(ALICE), a1, m, [BOB]);
    AliceSteps(cfg, a1, NEW_NODE, m, SnapshotPeers(ID, [BOB]), a2);
    AliceMarksBob(cfg, m);
  }

  lemma AliceMarksBob(cfg: Config, m: Mint)
    requires TwoNodes(cfg) && Added(m)
    requires Reachable(cfg, World(Alice(m, map[], Taken(m), Running(m, Checking([BOB])), Joining), NEW_NODE, m))
    ensures Reachable(cfg, World(Alice(m, BOB_PENDING, Taken(m), Running(m, Marking([])), Joining), NEW_NODE, m))
  {
    var a2 := Alice(m, map[], Taken(m), Running(m, Checking([BOB])), Joining);
    var a3 := Alice(m, map[], Taken(m), Running(m, Marking([BOB])), Joining);
    TaskMoves(cfg, cfg.maxSyncs(ALICE), a2, m, Checking([BOB]), a2.db, Marking([BOB]));
    AliceSteps(cfg, a2, NEW_NODE, m, TaskStep(ID), a3);
    var a4 := Alice(m, BOB_PENDING, Taken(m), Running(m, Marking([])), Joining);
    assert [BOB][1..] == [];
    TaskMoves(cfg, cfg.maxSyncs(ALICE), a3, m, Marking([BOB]), a4.db, Marking([]));
    AliceSteps(cfg, a3, NEW_NODE, m, TaskStep(ID), a4);
  }

  lemma PollsOne(maxSyncs: nat, node: Node, m: Mint)
    requires maxSyncs > 0 && node.pc.Polling? && node.queue == Queued(m) && node.tasks == map[]
    ensures PollQueue(node, maxSyncs) == node.(queue := Taken(m), tasks := Running(m, Spawned), pc := Joining)
  {
    var e := EntryFor(m);
    assert [e][..1] == [e] && [e][1..] == [] && [] + [e] == [e];
    assert Spawn([e][1..]) == map[];
  }

  lemma AliceJoins(cfg: Config, m: Mint)
    requires TwoNodes(cfg) && Added(m)
    requires Reachable(cfg, World(Alice(m, BOB_PENDING, Taken(m), Running(m, Marking([])), Joining), NEW_NODE, m))
    ensures Reachable(cfg, World(AliceAt(m, Snapshotting), NEW_NODE, m))
  {
    var a4 := Alice(m, BOB_PENDING, Taken(m), Running(m, Marking([])), Joining);
    var a5 := Alice(m, BOB_PENDING, Taken(m), Running(m, Finished(AlreadyPresent)), Joining);
    TaskMoves(cfg, cfg.maxSyncs(ALICE), a4, m, Marking([]), a4.db, Finished(AlreadyPresent));
    AliceSteps(cfg, a4, NEW_NODE, m, TaskStep(ID), a5);
    assert a5.tasks - {ID} == map[] && {ID} - {ID} == {};
    AliceSteps(cfg, a5, NEW_NODE, m, TaskDone(ID), AliceAt(m, Joining));
    AliceSteps(cfg, AliceAt(m, Joining), NEW_NODE, m, Joined, AliceAt(m, Snapshotting));
  }

  /** Each time round, while Bob is pending, she offers him the blob. */
  lemma AliceOffers(cfg: Config, b: Node, m: Mint)
    requires TwoNodes(cfg) && Added(m) && Reachable(cfg, World(AliceAt(m, Snapshotting), b, m))
    ensures Reachable(cfg, World(AliceAt(m, Offering(Offer(m), BOB)), b, m))
  {
    OneLister(BOB);
    OnlyBobPending(m);
    var listed := AliceAt(m, NextBlob({BOB}, [EntryFor(m)]));
    AliceSteps(cfg, AliceAt(m, Snapshotting), b, m, AnnounceSnapshot, AliceAt(m, Listing({BOB})));
    AliceSteps(cfg, AliceAt(m, Listing({BOB})), b, m, AnnounceList([EntryFor(m)]), listed);
    AliceTargets(cfg, b, m);
  }

  lemma AliceTargets(cfg: Config, b: Node, m: Mint)
    requires TwoNodes(cfg) && Added(m) && Reachable(cfg, World(AliceAt(m, NextBlob({BOB}, [EntryFor(m)])), b, m))
    ensures Reachable(cfg, World(AliceAt(m, Offering(Offer(m), BOB)), b, m))
  {
    OneLister(BOB);
    OnlyBobPending(m);
    var listed := AliceAt(m, NextBlob({BOB}, [EntryFor(m)]));
    var targeted := AliceAt(m, NextPeer(Announcer({BOB}, [], EntryFor(m), [BOB])));
    assert [EntryFor(m)][1..] == [] && [BOB][1..] == [];
    AliceSteps(cfg, listed, b, m, AnnounceTargets([BOB]), targeted);
    AliceSteps(cfg, targeted, b, m, AnnounceNext, AliceAt(m, Offering(Offer(m), BOB)));
  }

  /** Bob looks the blob up and does not have it. */
  lemma BobChecks(cfg: Config, b: Node, m: Mint)
    requires TwoNodes(cfg) && Reachable(cfg, World(AliceAt(m, Offering(Offer(m), BOB)), b, m))
    requires ID !in b.db.blobs
    ensures Reachable(cfg, World(AliceAt(m, Offered(Offer(m), BOB)), b, m))
  {
    var s := World(AliceAt(m, Offering(Offer(m), BOB)), b, m);
    var s' := World(AliceAt(m, Offered(Offer(m), BOB)), b, m);
    assert Check(s, ALICE).value == s';
    ReachableNext(cfg, s, Event(ALICE, OfferCheck), s');
  }

  /** ... and accepts. */
  lemma BobAccepts(cfg: Config, b: Node, m: Mint)
    requires TwoNodes(cfg) && Reachable(cfg, World(AliceAt(m, Offered(Offer(m), BOB)), b, m))
    ensures var s' := World(AliceAt(m, Acked(Offer(m), BOB)), b.(queue := Enqueue(b.queue, EntryFor(m))), m);
            && Next(cfg, World(AliceAt(m, Offered(Offer(m), BOB)), b, m), Event(ALICE, OfferEnqueue), s')
            && Reachable(cfg, s')
  {
    var s := World(AliceAt(m, Offered(Offer(m), BOB)), b, m);
    var s' := World(AliceAt(m, Acked(Offer(m), BOB)), b.(queue := Enqueue(b.queue, EntryFor(m))), m);
    assert Accept(s, ALICE).value == s';
    ReachableNext(cfg, s, Event(ALICE, OfferEnqueue), s');
  }

  /** Bob has queued the blob, and Alice has his answer. */
  lemma AliceAcked(cfg: Config, input: NewBlob, randoms: seq<nat>) returns (m: Mint)
    requires TwoNodes(cfg) && |randoms| == ChunkCount(|input.text|)
    requires TryFrom(input.privateKey).Ok? && |input.text| <= SAFE_LENGTH
    ensures Added(m) && m.text == input.text && m.meta.ownerId == input.owner
    ensures Reachable(cfg, World(AliceAt(m, Acked(Offer(m), BOB)), Bob(map[], {}, Queued(m), map[], Polling), m))
  {
    m := AliceBegins(cfg, input, randoms);
    AliceMarks(cfg, m);
    AliceJoins(cfg, m);
    AliceOffers(cfg, NEW_NODE, m);
    BobChecks(cfg, NEW_NODE, m);
    BobAccepts(cfg, NEW_NODE, m);
    assert NEW_NODE.(queue := Enqueue(NEW_NODE.queue, EntryFor(m))) == Bob(map[], {}, Queued(m), map[], Polling);
  }

  // ---- A completed entry is undone, and a deletion fails ------------------------------------

  /** Bob, fetching the blob in a round. */
  function BobFetching(m: Mint, status: Marks, peers: set<NodeId>, phase: Phase): Node {
    Bob(status, peers, Taken(m), Running(m, phase), Joining)
  }

  const BOB_ASKING: Marks := map[Key(ID, ALICE) := Pending]
  const ALICE_COMPLETED: Marks := map[Key(ID, BOB) := Completed]

  /** Bob begins a round, knowing the given peers. */
  lemma BobBegins(cfg: Config, m: Mint, peers: set<NodeId>, order: seq<NodeId>)
    requires TwoNodes(cfg) && Lists(order, peers)
    requires Reachable(cfg, World(AliceAt(m, Acked(Offer(m), BOB)), Bob(map[], peers, Queued(m), map[], Polling), m))
    ensures Reachable(cfg, World(AliceAt(m, Acked(Offer(m), BOB)), BobFetching(m, map[], peers, Checking(order)), m))
  {
    var a := AliceAt(m, Acked(Offer(m), BOB));
    var b0 := Bob(map[], peers, Queued(m), map[], Polling);
    PollsOne(cfg.maxSyncs(BOB), b0, m);
    BobSteps(cfg, a, b0, m, Poll, BobFetching(m, map[], peers, Spawned));
    TaskSnapshots(cfg, cfg.maxSyncs(BOB), BobFetching(m, map[], peers, Spawned), m, order);
    BobSteps(cfg, a, BobFetching(m, map[], peers, Spawned), m, SnapshotPeers(ID, order),
             BobFetching(m, map[], peers, Checking(order)));
  }

  lemma BobMeetsAlice(cfg: Config, a: Node, b: Node, m: Mint)
    requires TwoNodes(cfg) && Reachable(cfg, World(a, b, m)) && b.peers == {}
    ensures Reachable(cfg, World(a, b.(peers := {ALICE}), m))
  {
    assert {} + {ALICE} == {ALICE};
    BobSteps(cfg, a, b, m, Handshake(ALICE), b.(peers := {ALICE}));
  }

  /** He calls Alice while she still has to write down his answer. */
  lemma BobCalls(cfg: Config, m: Mint)
    requires TwoNodes(cfg) && Added(m)
    requires Reachable(cfg, World(AliceAt(m, Acked(Offer(m), BOB)), BobFetching(m, map[], {ALICE}, Checking([ALICE])), m))
    ensures Reachable(cfg, World(AliceAt(m, Acked(Offer(m), BOB)), BobFetching(m, BOB_ASKING, {ALICE}, Calling(ALICE, [])), m))
  {
    var a := AliceAt(m, Acked(Offer(m), BOB));
    var b1 := BobFetching(m, map[], {ALICE}, Checking([ALICE]));
    var b2 := BobFetching(m, map[], {ALICE}, Trying([ALICE]));
    TaskMoves(cfg, cfg.maxSyncs(BOB), b1, m, Checking([ALICE]), b1.db, Trying([ALICE]));
    BobSteps(cfg, a, b1, m, TaskStep(ID), b2);
    var b3 := BobFetching(m, BOB_ASKING, {ALICE}, Calling(ALICE, []));
    assert [ALICE][1..] == [];
    TaskMoves(cfg, cfg.maxSyncs(BOB), b2, m, Trying([ALICE]), b3.db, Calling(ALICE, []));
    BobSteps(cfg, a, b2, m, TaskStep(ID), b3);
  }

  /** She looks the blob up for him, and records that he has it. */
  lemma AliceServes(cfg: Config, m: Mint)
    requires TwoNodes(cfg) && Added(m)
    requires Reachable(cfg, World(AliceAt(m, Acked(Offer(m), BOB)), BobFetching(m, BOB_ASKING, {ALICE}, Calling(ALICE, [])), m))
    ensures Reachable(cfg, Race(m))
  {
    var a := AliceAt(m, Acked(Offer(m), BOB));
    var blob := ToProto(MintedRow(m), true);
    var s1 := World(a, BobFetching(m, BOB_ASKING, {ALICE}, Calling(ALICE, [])), m);
    var s2 := World(a, BobFetching(m, BOB_ASKING, {ALICE}, Serving(ALICE, [], blob)), m);
    AliceSelects(s1, s2, m);
    ReachableNext(cfg, s1, Event(BOB, ServeSelect(ID)), s2);
    AliceRecords(s2, m);
    ReachableNext(cfg, s2, Event(BOB, ServeMark(ID)), Race(m));
  }

  lemma AliceSelects(s1: Network, s2: Network, m: Mint)
    requires Added(m)
    requires s1 == World(AliceAt(m, Acked(Offer(m), BOB)), BobFetching(m, BOB_ASKING, {ALICE}, Calling(ALICE, [])), m)
    requires s2 == World(AliceAt(m, Acked(Offer(m), BOB)),
                         BobFetching(m, BOB_ASKING, {ALICE}, Serving(ALICE, [], ToProto(MintedRow(m), true))), m)
    ensures Select(s1, BOB, ID) == Some(s2)
  {
    RunningMoves(m, Calling(ALICE, []), Serving(ALICE, [], ToProto(MintedRow(m), true)));
    assert Put(s1, BOB, s2.nodes[BOB]) == s2;
  }

  /** Alice has recorded Bob as having the blob, and is about to write down that he is pending. */
  function Race(m: Mint): Network {
    World(Alice(m, ALICE_COMPLETED, Over(m), map[], Acked(Offer(m), BOB)),
          BobFetching(m, BOB_ASKING, {ALICE}, Answered(ALICE, [], Found(ToProto(MintedRow(m), true)))), m)
  }

  lemma AliceRecords(s: Network, m: Mint)
    requires s == World(AliceAt(m, Acked(Offer(m), BOB)),
                        BobFetching(m, BOB_ASKING, {ALICE}, Serving(ALICE, [], ToProto(MintedRow(m), true))), m)
    ensures Mark(s, BOB, ID) == Some(Race(m))
  {
    var blob := ToProto(MintedRow(m), true);
    RunningMoves(m, Serving(ALICE, [], blob), Answered(ALICE, [], Found(blob)));
    assert BOB_PENDING[Key(ID, BOB) := Completed] == ALICE_COMPLETED;
    assert Put(Put(s, ALICE, Race(m).nodes[ALICE]), BOB, Race(m).nodes[BOB]) == Race(m);
  }

  lemma RaceReachable(cfg: Config, input: NewBlob, randoms: seq<nat>) returns (m: Mint)
    requires TwoNodes(cfg) && |randoms| == ChunkCount(|input.text|)
    requires TryFrom(input.privateKey).Ok? && |input.text| <= SAFE_LENGTH
    ensures Added(m) && m.text == input.text && m.meta.ownerId == input.owner && Reachable(cfg, Race(m))
  {
    m := AliceAcked(cfg, input, randoms);
    var a := AliceAt(m, Acked(Offer(m), BOB));
    BobMeetsAlice(cfg, a, Bob(map[], {}, Queued(m), map[], Polling), m);
    OneLister(ALICE);
    BobBegins(cfg, m, {ALICE}, [ALICE]);
    BobCalls(cfg, m);
    AliceServes(cfg, m);
  }

  /**
   * Whatever the text and the key: there is a reachable state in which Alice records Bob as
   * having the blob, he has it in hand, and her next step sets him back to pending.
   */
  lemma CompletedUndone(cfg: Config, input: NewBlob, randoms: seq<nat>) returns (s: Network, s': Network)
    requires TwoNodes(cfg) && |randoms| == ChunkCount(|input.text|)
    requires TryFrom(input.privateKey).Ok? && |input.text| <= SAFE_LENGTH
    ensures Reachable(cfg, s) && Next(cfg, s, Event(ALICE, Local(AnnounceNext)), s')
    ensures CompletedAt(s, ALICE, Key(ID, BOB)) && ReceivedAt(s, BOB, ID, ALICE)
    ensures !CompletedAt(s', ALICE, Key(ID, BOB))
  {
    var m := RaceReachable(cfg, input, randoms);
    s := Race(m);
    var after := AliceAt(m, NextPeer(Offer(m)));
    assert ALICE_COMPLETED[Key(ID, BOB) := Pending] == BOB_PENDING;
    assert StepNode(cfg, cfg.maxSyncs(ALICE), s.nodes[ALICE], AnnounceNext) == Some(after);
    s' := Put(s, ALICE, after);
  }

  /**
   * In the same state the owner can delete the blob: in the run that goes on from there the
   * row is deleted and queued, and then the last statement of the request meets a taken key
   * and fails.
   */
  lemma DeletionFails(cfg: Config, input: NewBlob, randoms: seq<nat>)
    returns (states: seq<Network>, events: seq<Event>)
    requires TwoNodes(cfg) && |randoms| == ChunkCount(|input.text|)
    requires TryFrom(input.privateKey).Ok? && |input.text| <= SAFE_LENGTH
    ensures IsRun(cfg, states, events) && Reachable(cfg, states[0]) && FailsToDelete(states, events, input.owner)
  {
    var m := RaceReachable(cfg, input, randoms);
    states, events := AliceDeletes(cfg, m, Race(m).nodes[BOB]);
  }

  /** The three statements of deleting `ID` up to the last, which is still to come and will fail. */
  predicate FailsToDelete(states: seq<Network>, events: seq<Event>, owner: Uuid) {
    && |states| == 4 && |events| == 3
    && (forall i | 0 <= i < 4 :: ALICE in states[i].nodes)
    && IsLive(states[0].nodes[ALICE].db, ID)
    && events[0] == Event(ALICE, Local(DeleteSelect(ID, owner)))
    && var e := Entry(ID, states[0].nodes[ALICE].db.blobs[ID].meta.hash);
       && events[1] == Event(ALICE, Local(Continue(MarkDeleted(e))))
       && events[2] == Event(ALICE, Local(Continue(EnqueueDeleted(e))))
       && !IsLive(states[3].nodes[ALICE].db, ID)
       && Requeue(ID) in states[3].nodes[ALICE].ops && RequeueCompleted(states[3].nodes[ALICE].db, ID).None?
  }

  /** Alice's node while her request to delete is under way. */
  function Deleting(m: Mint, deleted: bool, queue: Queue, op: Op): Node {
    Node(Database(map[ID := MintedRow(m).(deleted := deleted)], ALICE_COMPLETED), {BOB}, queue, map[],
         Acked(Offer(m), BOB), multiset{op})
  }

  lemma AliceDeletes(cfg: Config, m: Mint, b: Node) returns (states: seq<Network>, events: seq<Event>)
    requires TwoNodes(cfg) && Added(m)
    requires Reachable(cfg, World(Alice(m, ALICE_COMPLETED, Over(m), map[], Acked(Offer(m), BOB)), b, m))
    ensures IsRun(cfg, states, events) && Reachable(cfg, states[0]) && FailsToDelete(states, events, m.meta.ownerId)
    ensures Reachable(cfg, World(Deleting(m, true, Enqueue(Over(m), EntryFor(m)), Requeue(ID)), b, m))
  {
    var a, e := Alice(m, ALICE_COMPLETED, Over(m), map[], Acked(Offer(m), BOB)), EntryFor(m);
    var a1 := Deleting(m, false, Over(m), MarkDeleted(e));
    var a2 := Deleting(m, true, Over(m), EnqueueDeleted(e));
    var a3 := Deleting(m, true, Enqueue(Over(m), e), Requeue(ID));
    AliceSelectsOwn(cfg, cfg.maxSyncs(ALICE), m);
    AliceSteps(cfg, a, b, m, DeleteSelect(ID, m.meta.ownerId), a1);
    AliceMarksDeleted(cfg, cfg.maxSyncs(ALICE), m);
    AliceSteps(cfg, a1, b, m, Continue(MarkDeleted(e)), a2);
    AliceRequeues(cfg, cfg.maxSyncs(ALICE), m);
    AliceSteps(cfg, a2, b, m, Continue(EnqueueDeleted(e)), a3);
    states := [World(a, b, m), World(a1, b, m), World(a2, b, m), World(a3, b, m)];
    events := [Event(ALICE, Local(DeleteSelect(ID, m.meta.ownerId))), Event(ALICE, Local(Continue(MarkDeleted(e)))),
               Event(ALICE, Local(Continue(EnqueueDeleted(e))))];
    ThreeSteps(cfg, states, events);
    RequeueWillFail(m, Enqueue(Over(m), e));
  }

  lemma ThreeSteps(cfg: Config, states: seq<Network>, events: seq<Event>)
    requires |states| == 4 && |events| == 3
    requires Next(cfg, states[0], events[0], states[1])
    requires Next(cfg, states[1], events[1], states[2])
    requires Next(cfg, states[2], events[2], states[3])
    ensures IsRun(cfg, states, events)
  {
    forall i | 0 <= i < |events|
      ensures Next(cfg, states[i], events[i], states[i + 1])
    {
      assert i == 0 || i == 1 || i == 2;
    }
  }

  lemma RequeueWillFail(m: Mint, queue: Queue)
    ensures RequeueCompleted(Deleting(m, true, queue, Requeue(ID)).db, ID).None?
  {
    var db := Deleting(m, true, queue, Requeue(ID)).db;
    assert Key(ID, BOB) in db.status && BOB in CompletedPeers(db, ID);
    RequeueNeverInserts(db, ID);
  }

  lemma AliceSelectsOwn(cfg: Config, maxSyncs: nat, m: Mint)
    requires Added(m)
    ensures StepNode(cfg, maxSyncs, Alice(m, ALICE_COMPLETED, Over(m), map[], Acked(Offer(m), BOB)),
                     DeleteSelect(ID, m.meta.ownerId)) == Some(Deleting(m, false, Over(m), MarkDeleted(EntryFor(m))))
  {
    assert multiset{} + multiset{MarkDeleted(EntryFor(m))} == multiset{MarkDeleted(EntryFor(m))};
  }

  lemma AliceMarksDeleted(cfg: Config, maxSyncs: nat, m: Mint)
    requires Added(m)
    ensures var e := EntryFor(m);
            StepNode(cfg, maxSyncs, Deleting(m, false, Over(m), MarkDeleted(e)), Continue(MarkDeleted(e))) ==
            Some(Deleting(m, true, Over(m), EnqueueDeleted(e)))
  {
    var e := EntryFor(m);
    assert multiset{MarkDeleted(e)} - multiset{MarkDeleted(e)} + multiset{EnqueueDeleted(e)} == multiset{EnqueueDeleted(e)};
    assert SoftDelete(Deleting(m, false, Over(m), MarkDeleted(e)).db, ID) == Deleting(m, true, Over(m), MarkDeleted(e)).db;
  }

  lemma AliceRequeues(cfg: Config, maxSyncs: nat, m: Mint)
    requires Added(m)
    ensures var e := EntryFor(m);
            StepNode(cfg, maxSyncs, Deleting(m, true, Over(m), EnqueueDeleted(e)), Continue(EnqueueDeleted(e))) ==
            Some(Deleting(m, true, Enqueue(Over(m), e), Requeue(ID)))
  {
    var e := EntryFor(m);
    assert multiset{EnqueueDeleted(e)} - multiset{EnqueueDeleted(e)} + multiset{Requeue(ID)} == multiset{Requeue(ID)};
  }

  // ---- A deleted blob is fetched again, in vain ---------------------------------------------

  /** Bob, who has stored the blob, and has the given status for Alice. */
  function BobHolding(m: Mint, status: SyncStatus): Node {
    Node(Database(map[ID := MintedRow(m)], map[Key(ID, ALICE) := status]), {ALICE}, Taken(m),
         Running(m, Completing(ALICE)), Joining, multiset{})
  }

  lemma BobStores(cfg: Config, m: Mint)
    requires TwoNodes(cfg) && Added(m) && Reachable(cfg, Race(m))
    ensures Reachable(cfg, World(Race(m).nodes[ALICE], BobHolding(m, Pending), m))
  {
    var (a, b0) := (Race(m).nodes[ALICE], Race(m).nodes[BOB]);
    var found, storing := Answered(ALICE, [], Found(ToProto(MintedRow(m), true))), Storing(ALICE, m.meta, m.content);
    var b1 := BobFetching(m, BOB_ASKING, {ALICE}, storing);
    TaskMoves(cfg, cfg.maxSyncs(BOB), b0, m, found, b0.db, storing);
    BobSteps(cfg, a, b0, m, TaskStep(ID), b1);
    var b2 := BobHolding(m, Pending);
    assert b1.db.blobs[ID := MintedRow(m)] == b2.db.blobs;
    TaskMoves(cfg, cfg.maxSyncs(BOB), b1, m, storing, b2.db, Completing(ALICE));
    BobSteps(cfg, a, b1, m, TaskStep(ID), b2);
  }

  /** Alice after she has deleted the blob, with the last statement of her request still to come. */
  function AliceGone(m: Mint, status: Marks, queue: Queue, tasks: map<Uuid, Task>, pc: LoopPc): Node {
    Node(Database(map[ID := MintedRow(m).(deleted := true)], status), {BOB}, queue, tasks, pc, multiset{Requeue(ID)})
  }

  /** The queue when the blob waits again, and when its second task runs. */
  function QueuedAgain(m: Mint): Queue {
    Queue([EntryFor(m)], {ID}, [EntryFor(m), EntryFor(m)], [EntryFor(m)])
  }

  function TakenAgain(m: Mint): Queue {
    Queue([], {ID}, [EntryFor(m), EntryFor(m)], [EntryFor(m), EntryFor(m)])
  }

  /** Alice's second task, which has met the deleted row. */
  function AliceRefetching(m: Mint, tombstone: bool, phase: Phase): Node {
    AliceGone(m, BOB_PENDING, TakenAgain(m), map[ID := Task(m.meta.hash, tombstone, phase)], Joining)
  }

  lemma AliceGoesOn(cfg: Config, b: Node, m: Mint)
    requires TwoNodes(cfg) && Added(m)
    requires Reachable(cfg, World(AliceGone(m, ALICE_COMPLETED, QueuedAgain(m), map[], Acked(Offer(m), BOB)), b, m))
    ensures Reachable(cfg, World(AliceGone(m, BOB_PENDING, QueuedAgain(m), map[], Polling), b, m))
  {
    var a0 := AliceGone(m, ALICE_COMPLETED, QueuedAgain(m), map[], Acked(Offer(m), BOB));
    var a1 := AliceGone(m, BOB_PENDING, QueuedAgain(m), map[], NextPeer(Offer(m)));
    assert ALICE_COMPLETED[Key(ID, BOB) := Pending] == BOB_PENDING;
    AliceSteps(cfg, a0, b, m, AnnounceNext, a1);
    var a2 := AliceGone(m, BOB_PENDING, QueuedAgain(m), map[], NextBlob({BOB}, []));
    AliceSteps(cfg, a1, b, m, AnnounceNext, a2);
    AliceSteps(cfg, a2, b, m, AnnounceNext, AliceGone(m, BOB_PENDING, QueuedAgain(m), map[], Polling));
  }

  lemma AlicePollsAgain(cfg: Config, b: Node, m: Mint)
    requires TwoNodes(cfg) && Added(m)
    requires Reachable(cfg, World(AliceGone(m, BOB_PENDING, QueuedAgain(m), map[], Polling), b, m))
    ensures Reachable(cfg, World(AliceRefetching(m, false, Checking([BOB])), b, m))
  {
    var a0 := AliceGone(m, BOB_PENDING, QueuedAgain(m), map[], Polling);
    PollsAgain(cfg.maxSyncs(ALICE), m);
    AliceSteps(cfg, a0, b, m, Poll, AliceRefetching(m, false, Spawned));
    OneLister(BOB);
    TaskSnapshots(cfg, cfg.maxSyncs(ALICE), AliceRefetching(m, false, Spawned), m, [BOB]);
    AliceSteps(cfg, AliceRefetching(m, false, Spawned), b, m, SnapshotPeers(ID, [BOB]),
               AliceRefetching(m, false, Checking([BOB])));
  }

  lemma PollsAgain(maxSyncs: nat, m: Mint)
    requires maxSyncs > 0
    ensures PollQueue(AliceGone(m, BOB_PENDING, QueuedAgain(m), map[], Polling), maxSyncs) ==
            AliceRefetching(m, false, Spawned)
  {
    var (e, q) := (EntryFor(m), QueuedAgain(m));
    assert [e][..1] == [e] && [e][1..] == [] && [e] + [e] == [e, e];
    assert Batch(q, maxSyncs) == [e] && TakeBatch(q, maxSyncs) == TakenAgain(m);
    assert Spawn([e][1..]) == map[];
    assert map[] + Spawn([e]) == map[ID := Task(m.meta.hash, false, Spawned)];
  }

  /** A step of Alice's second task. */
  lemma AliceRefetches(cfg: Config, b: Node, m: Mint, tombstone: bool, phase: Phase, tombstone': bool, phase': Phase)
    requires TwoNodes(cfg) && Reachable(cfg, World(AliceRefetching(m, tombstone, phase), b, m)) && !Waiting(phase)
    requires var a := AliceRefetching(m, tombstone, phase);
             Advance(cfg.sha, a.db, ID, Task(m.meta.hash, tombstone, phase)) == (a.db, Task(m.meta.hash, tombstone', phase'))
    ensures Reachable(cfg, World(AliceRefetching(m, tombstone', phase'), b, m))
  {
    var a, a' := AliceRefetching(m, tombstone, phase), AliceRefetching(m, tombstone', phase');
    assert a.tasks[ID := Task(m.meta.hash, tombstone', phase')] == a'.tasks;
    AliceSteps(cfg, a, b, m, TaskStep(ID), a');
  }

  lemma AliceCalls(cfg: Config, b: Node, m: Mint)
    requires TwoNodes(cfg) && Added(m) && Reachable(cfg, World(AliceRefetching(m, false, Checking([BOB])), b, m))
    ensures Reachable(cfg, World(AliceRefetching(m, true, Calling(BOB, [])), b, m))
  {
    AliceRefetches(cfg, b, m, false, Checking([BOB]), true, Trying([BOB]));
    assert [BOB][1..] == [] && BOB_PENDING[Key(ID, BOB) := Pending] == BOB_PENDING;
    AliceRefetches(cfg, b, m, true, Trying([BOB]), true, Calling(BOB, []));
  }

  lemma BobServes(cfg: Config, m: Mint)
    requires TwoNodes(cfg) && Added(m)
    requires Reachable(cfg, World(AliceRefetching(m, true, Calling(BOB, [])), BobHolding(m, Pending), m))
    ensures Reachable(cfg, World(AliceRefetching(m, true, Answered(BOB, [], Found(ToProto(MintedRow(m), true)))),
                                 BobHolding(m, Completed), m))
  {
    var blob := ToProto(MintedRow(m), true);
    var s1 := World(AliceRefetching(m, true, Calling(BOB, [])), BobHolding(m, Pending), m);
    var s2 := World(AliceRefetching(m, true, Serving(BOB, [], blob)), BobHolding(m, Pending), m);
    var s3 := World(AliceRefetching(m, true, Answered(BOB, [], Found(blob))), BobHolding(m, Completed), m);
    BobSelects(s1, s2, m);
    ReachableNext(cfg, s1, Event(ALICE, ServeSelect(ID)), s2);
    BobRecords(s2, s3, m);
    ReachableNext(cfg, s2, Event(ALICE, ServeMark(ID)), s3);
  }

  lemma BobSelects(s: Network, s': Network, m: Mint)
    requires Added(m) && s == World(AliceRefetching(m, true, Calling(BOB, [])), BobHolding(m, Pending), m)
    requires s' == World(AliceRefetching(m, true, Serving(BOB, [], ToProto(MintedRow(m), true))), BobHolding(m, Pending), m)
    ensures Select(s, ALICE, ID) == Some(s')
  {
    var task := Task(m.meta.hash, true, Serving(BOB, [], ToProto(MintedRow(m), true)));
    assert s.nodes[ALICE].tasks[ID := task] == s'.nodes[ALICE].tasks;
    assert Put(s, ALICE, s'.nodes[ALICE]) == s';
  }

  lemma BobRecords(s: Network, s': Network, m: Mint)
    requires s == World(AliceRefetching(m, true, Serving(BOB, [], ToProto(MintedRow(m), true))), BobHolding(m, Pending), m)
    requires s' == World(AliceRefetching(m, true, Answered(BOB, [], Found(ToProto(MintedRow(m), true)))),
                         BobHolding(m, Completed), m)
    ensures Mark(s, ALICE, ID) == Some(s')
  {
    var task := Task(m.meta.hash, true, Answered(BOB, [], Found(ToProto(MintedRow(m), true))));
    assert s.nodes[ALICE].tasks[ID := task] == s'.nodes[ALICE].tasks;
    assert s.nodes[BOB].db.status[Key(ID, ALICE) := Completed] == s'.nodes[BOB].db.status;
    assert Put(Put(s, BOB, s'.nodes[BOB]), ALICE, s'.nodes[ALICE]) == s';
  }

  /** The task of `n` for `ID` has met a deleted row, has the blob in hand, and its INSERT will fail. */
  predicate WillConflict(s: Network, n: NodeId) {
    && n in s.nodes && ID in s.nodes[n].tasks && s.nodes[n].tasks[ID].tombstone && s.nodes[n].tasks[ID].phase.Storing?
    && ID in s.nodes[n].db.blobs && s.nodes[n].db.blobs[ID].deleted
    && var Storing(_, meta, content) := s.nodes[n].tasks[ID].phase;
       InsertBlob(s.nodes[n].db, Row(meta, content, false)).None?
  }

  /**
   * Whatever the text and the key: deleting a blob that a peer has makes the node fetch it back
   * from there, in a reachable state in which the INSERT meets the deleted row and fails.
   */
  lemma DeletedIsFetched(cfg: Config, input: NewBlob, randoms: seq<nat>) returns (s: Network)
    requires TwoNodes(cfg) && |randoms| == ChunkCount(|input.text|)
    requires TryFrom(input.privateKey).Ok? && |input.text| <= SAFE_LENGTH
    ensures Reachable(cfg, s) && WillConflict(s, ALICE)
  {
    var m := RaceReachable(cfg, input, randoms);
    BobStores(cfg, m);
    AliceAsksBob(cfg, m);
    BobServes(cfg, m);
    s := AliceMeetsDeleted(cfg, m);
  }

  lemma AliceAsksBob(cfg: Config, m: Mint)
    requires TwoNodes(cfg) && Added(m) && Reachable(cfg, World(Race(m).nodes[ALICE], BobHolding(m, Pending), m))
    ensures Reachable(cfg, World(AliceRefetching(m, true, Calling(BOB, [])), BobHolding(m, Pending), m))
  {
    var b := BobHolding(m, Pending);
    var states, events := AliceDeletes(cfg, m, b);
    DeletingIsGone(m);
    AliceGoesOn(cfg, b, m);
    AlicePollsAgain(cfg, b, m);
    AliceCalls(cfg, b, m);
  }

  lemma DeletingIsGone(m: Mint)
    ensures Deleting(m, true, Enqueue(Over(m), EntryFor(m)), Requeue(ID)) ==
            AliceGone(m, ALICE_COMPLETED, QueuedAgain(m), map[], Acked(Offer(m), BOB))
  {
    assert Enqueue(Over(m), EntryFor(m)) == QueuedAgain(m);
  }

  lemma AliceMeetsDeleted(cfg: Config, m: Mint) returns (s: Network)
    requires TwoNodes(cfg) && Added(m)
    requires Reachable(cfg, World(AliceRefetching(m, true, Answered(BOB, [], Found(ToProto(MintedRow(m), true)))),
                                  BobHolding(m, Completed), m))
    ensures Reachable(cfg, s) && WillConflict(s, ALICE)
  {
    var found := Answered(BOB, [], Found(ToProto(MintedRow(m), true)));
    AliceRefetches(cfg, BobHolding(m, Completed), m, true, found, true, Storing(BOB, m.meta, m.content));
    s := World(AliceRefetching(m, true, Storing(BOB, m.meta, m.content)), BobHolding(m, Completed), m);
  }

  // ---- An announcement is lost --------------------------------------------------------------

  /** Alice writes Bob's answer down, and the next time round offers him the blob again. */
  lemma AliceOffersAgain(cfg: Config, b: Node, m: Mint)
    requires TwoNodes(cfg) && Added(m) && Reachable(cfg, World(AliceAt(m, Acked(Offer(m), BOB)), b, m))
    ensures Reachable(cfg, World(AliceAt(m, Offering(Offer(m), BOB)), b, m))
  {
    assert BOB_PENDING[Key(ID, BOB) := Pending] == BOB_PENDING;
    AliceSteps(cfg, AliceAt(m, Acked(Offer(m), BOB)), b, m, AnnounceNext, AliceAt(m, NextPeer(Offer(m))));
    AliceSteps(cfg, AliceAt(m, NextPeer(Offer(m))), b, m, AnnounceNext, AliceAt(m, NextBlob({BOB}, [])));
    AliceSteps(cfg, AliceAt(m, NextBlob({BOB}, [])), b, m, AnnounceNext, AliceAt(m, Polling));
    AlicePollsNothing(cfg, b, m);
    AliceOffers(cfg, b, m);
  }

  lemma AlicePollsNothing(cfg: Config, b: Node, m: Mint)
    requires TwoNodes(cfg) && Reachable(cfg, World(AliceAt(m, Polling), b, m))
    ensures Reachable(cfg, World(AliceAt(m, Snapshotting), b, m))
  {
    var a := AliceAt(m, Polling);
    assert Batch(a.queue, cfg.maxSyncs(ALICE)) == [] && a.queue.popped + [] == a.queue.popped;
    assert a.tasks + Spawn([]) == map[];
    AliceSteps(cfg, a, b, m, Poll, AliceAt(m, Snapshotting));
  }

  /**
   * Whatever the text and the key: there is a run in which Bob begins to fetch the blob while
   * he knows no peer, then meets Alice and accepts her announcement, and in the end, though no
   * call to her fails and she deletes nothing, neither has the blob nor will look for it.
   */
  lemma AnnouncementLost(cfg: Config, input: NewBlob, randoms: seq<nat>)
    returns (before: Network, states: seq<Network>, events: seq<Event>)
    requires TwoNodes(cfg) && |randoms| == ChunkCount(|input.text|)
    requires TryFrom(input.privateKey).Ok? && |input.text| <= SAFE_LENGTH
    ensures var g := Goal(BOB, ALICE, ID);
            && IsRun(cfg, states, events) && JustAccepted(cfg, before, states[0], g)
            && Undisrupted(states, events, g) && Lost(states[|events|], g)
  {
    var m := AliceAcked(cfg, input, randoms);
    OneLister(ALICE);
    BobBegins(cfg, m, {}, []);
    var b := BobFetching(m, map[], {ALICE}, Checking([]));
    BobMeetsAlice(cfg, AliceAt(m, Acked(Offer(m), BOB)), BobFetching(m, map[], {}, Checking([])), m);
    AliceOffersAgain(cfg, b, m);
    BobChecks(cfg, b, m);
    BobAccepts(cfg, b, m);
    before := World(AliceAt(m, Offered(Offer(m), BOB)), b, m);
    states, events := BobLoses(cfg, before, m);
  }

  lemma BobLoses(cfg: Config, before: Network, m: Mint) returns (states: seq<Network>, events: seq<Event>)
    requires TwoNodes(cfg) && Added(m) && Reachable(cfg, before)
    requires before == World(AliceAt(m, Offered(Offer(m), BOB)), BobFetching(m, map[], {ALICE}, Checking([])), m)
    requires Next(cfg, before, Event(ALICE, OfferEnqueue),
                  World(AliceAt(m, Acked(Offer(m), BOB)), BobFetching(m, map[], {ALICE}, Checking([])), m))
    ensures var g := Goal(BOB, ALICE, ID);
            && IsRun(cfg, states, events) && JustAccepted(cfg, before, states[0], g)
            && Undisrupted(states, events, g) && Lost(states[|events|], g)
  {
    var g := Goal(BOB, ALICE, ID);
    var s := World(AliceAt(m, Acked(Offer(m), BOB)), BobFetching(m, map[], {ALICE}, Checking([])), m);
    assert JustAccepted(cfg, before, s, g);
    assert !Obtainable(s, g);
    AnnouncementNotLost(cfg, before, s, g);
    states, events :| Continues(cfg, s, states, events, g) && Lost(states[|events|], g);
  }
}

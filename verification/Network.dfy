// N nodes that announce, fetch, delete and store blobs. Every section under the write
// lock, every SQL statement, and every hand-over of a message is one step; the steps
// of all activities on all nodes interleave freely. A call in flight is recorded in the
// program counter of its caller, which waits for it.
module Network {
  import opened Wrappers
  import opened LittleEndian
  import opened Store
  import opened SyncQueue
  import opened FetchTask
  import opened Keypair
  import opened ElGamal

  /** The remaining statements of a request that a node is serving for a user or a peer. */
  datatype Op =
    | EnqueueAdded(entry: Entry)
    | MarkDeleted(entry: Entry)
    | EnqueueDeleted(entry: Entry)
    | Requeue(id: Uuid)
    | MarkRemotelyDeleted(id: Uuid)

  /** Where `announce_blobs` stands: blobs still to come, the current one, its peers still to come. */
  datatype Announcer = Announcer(peers: set<NodeId>, blobs: seq<Entry>, current: Entry, targets: seq<NodeId>)

  /** Where the sync loop of a node stands; an error in it ends it for good. */
  datatype LoopPc =
    | Stopped
    | Polling
    | Joining
    | Snapshotting
    | Listing(peers: set<NodeId>)
    | NextBlob(peers: set<NodeId>, blobs: seq<Entry>)
    | NextPeer(a: Announcer)
    | Offering(a: Announcer, to: NodeId)
    | Offered(a: Announcer, to: NodeId)
    | Acked(a: Announcer, to: NodeId)

  datatype Node = Node(
    db: Database, peers: set<NodeId>, queue: Queue, tasks: map<Uuid, Task>, pc: LoopPc, ops: multiset<Op>)

  /** The fixed part: the nodes, their batch limits, and the digest function. */
  datatype Config = Config(nodes: set<NodeId>, maxSyncs: NodeId -> nat, sha: Bytes -> Hash)

  /** History of one `add_blob`: its node, the row it made, and the text, key and random numbers it was made from. */
  datatype Mint = Mint(
    origin: NodeId, meta: BlobMetadata, content: Bytes, text: Bytes, key: PrivateKey, randoms: seq<nat>)

  datatype Network = Network(nodes: map<NodeId, Node>, minted: map<Uuid, Mint>)

  const NEW_NODE := Node(Database(map[], map[]), {}, EMPTY, map[], Polling, multiset{})

  ghost predicate Init(cfg: Config, s: Network) {
    s == Network(map n | n in cfg.nodes :: NEW_NODE, map[])
  }

  // ---- Steps that concern one node only ----------------------------------------

  datatype LocalStep =
    | Handshake(peer: NodeId)
    | DeleteSelect(id: Uuid, user: Uuid)
    | RemoteDeleteSelect(id: Uuid)
    | Continue(op: Op)
    | Poll
    | SnapshotPeers(id: Uuid, order: seq<NodeId>)
    | TaskStep(id: Uuid)
    | CallFails(id: Uuid)
    | TaskDone(id: Uuid)
    | Joined
    | AnnounceSnapshot
    | AnnounceList(blobs: seq<Entry>)
    | AnnounceTargets(order: seq<NodeId>)
    | AnnounceNext
    | OfferFails

  /** `order` lists the members of `all`, each once: the arbitrary order of a hash map or a query. */
  predicate Lists(order: seq<NodeId>, all: set<NodeId>) {
    Distinct(order) && (set peer | peer in order) == all
  }

  /** The answer to the query for blobs to announce: at most 100, each with its hash. */
  predicate ListsShareable(db: Database, blobs: seq<Entry>) {
    && DistinctIds(blobs)
    && |blobs| == (if |Shareable(db)| < 100 then |Shareable(db)| else 100)
    && forall i | 0 <= i < |blobs| ::
         blobs[i].id in Shareable(db) && blobs[i].hash == db.blobs[blobs[i].id].meta.hash
  }

  /** Reading the rows listed fails if one of them is too large. */
  predicate AllReadable(db: Database, blobs: seq<Entry>) {
    forall i | 0 <= i < |blobs| && blobs[i].id in db.blobs :: Readable(db.blobs[blobs[i].id])
  }

  function Spawn(batch: seq<Entry>): (tasks: map<Uuid, Task>)
    ensures tasks.Keys == Ids(batch)
    ensures forall id | id in tasks ::
              tasks[id] == Task(tasks[id].expected, false, Spawned) && Entry(id, tasks[id].expected) in batch
  {
    if batch == [] then map[]
    else
      assert Ids(batch) == {batch[0].id} + Ids(batch[1..]);
      Spawn(batch[1..])[batch[0].id := Task(batch[0].hash, false, Spawned)]
  }

  /** One statement of `add_blob`, `delete_blob` or `handle_delete` after its first. */
  function RunOp(node: Node, op: Op): Node {
    match op
    case EnqueueAdded(entry) => node.(queue := Enqueue(node.queue, entry))
    case MarkDeleted(entry) =>
      node.(db := SoftDelete(node.db, entry.id), ops := node.ops + multiset{EnqueueDeleted(entry)})
    case EnqueueDeleted(entry) =>
      node.(queue := Enqueue(node.queue, entry), ops := node.ops + multiset{Requeue(entry.id)})
    case Requeue(id) =>
      (match RequeueCompleted(node.db, id)
       case None => node
       case Some(db) => node.(db := db))
    case MarkRemotelyDeleted(id) => node.(db := SoftDelete(node.db, id))
  }

  /** `process_sync_queue` up to the spawned tasks; with nothing queued it is over at once. */
  function PollQueue(node: Node, maxSyncs: nat): Node {
    var batch := Batch(node.queue, maxSyncs);
    node.(queue := TakeBatch(node.queue, maxSyncs), tasks := node.tasks + Spawn(batch),
          pc := if batch == [] then Snapshotting else Joining)
  }

  function SetTask(node: Node, id: Uuid, task: Task): Node {
    node.(tasks := node.tasks[id := task])
  }

  function SetPhase(node: Node, id: Uuid, phase: Phase): Node
    requires id in node.tasks
  {
    SetTask(node, id, node.tasks[id].(phase := phase))
  }

  function AdvanceTask(sha: Bytes -> Hash, node: Node, id: Uuid): Node
    requires id in node.tasks && !Waiting(node.tasks[id].phase)
  {
    var (db, task) := Advance(sha, node.db, id, node.tasks[id]);
    SetTask(node.(db := db), id, task)
  }

  /** The bookkeeping of the announcing loop between its calls. */
  function AdvanceAnnouncer(node: Node): Option<Node> {
    match node.pc
    case NextBlob(_, blobs) => if blobs == [] then Some(node.(pc := Polling)) else None
    case NextPeer(a) =>
      if a.targets == [] then Some(node.(pc := NextBlob(a.peers, a.blobs)))
      else
        var to, later := a.targets[0], a.(targets := a.targets[1..]);
        Some(node.(pc := if to in a.peers then Offering(later, to) else NextPeer(later)))
    case Acked(a, to) =>
      Some(node.(db := SetStatus(node.db, a.current.id, to, Pending), pc := NextPeer(a)))
    case _ => None
  }

  /** A step of one node, or `None` where it is not possible. */
  function StepNode(cfg: Config, maxSyncs: nat, node: Node, step: LocalStep): (r: Option<Node>) {
    match step
    case Handshake(peer) =>
      if peer in cfg.nodes then Some(node.(peers := node.peers + {peer})) else None
    case DeleteSelect(id, user) =>
      if IsLive(node.db, id) && Readable(node.db.blobs[id]) && node.db.blobs[id].meta.ownerId == user then
        Some(node.(ops := node.ops + multiset{MarkDeleted(Entry(id, node.db.blobs[id].meta.hash))}))
      else None
    case RemoteDeleteSelect(id) =>
      if IsLive(node.db, id) then Some(node.(ops := node.ops + multiset{MarkRemotelyDeleted(id)})) else None
    case Continue(op) =>
      if op in node.ops then Some(RunOp(node.(ops := node.ops - multiset{op}), op)) else None
    case Poll =>
      if node.pc.Polling? then Some(PollQueue(node, maxSyncs)) else None
    case SnapshotPeers(id, order) =>
      if id in node.tasks && node.tasks[id].phase.Spawned? && Lists(order, node.peers) then
        Some(SetPhase(node, id, Checking(order)))
      else None
    case TaskStep(id) =>
      if id in node.tasks && !Waiting(node.tasks[id].phase) then Some(AdvanceTask(cfg.sha, node, id)) else None
    case CallFails(id) =>
      if id in node.tasks && node.tasks[id].phase.Calling? then
        var Calling(peer, rest) := node.tasks[id].phase;
        Some(SetPhase(node, id, Answered(peer, rest, CallError)))
      else None
    case TaskDone(id) =>
      if id in node.tasks && node.tasks[id].phase.Finished? then
        Some(node.(tasks := node.tasks - {id}, queue := Release(node.queue, id)))
      else None
    case Joined =>
      if node.pc.Joining? && node.tasks == map[] then Some(node.(pc := Snapshotting)) else None
    case AnnounceSnapshot =>
      if node.pc.Snapshotting? then Some(node.(pc := Listing(node.peers))) else None
    case AnnounceList(blobs) =>
      if node.pc.Listing? && ListsShareable(node.db, blobs) then
        Some(node.(pc := if AllReadable(node.db, blobs) then NextBlob(node.pc.peers, blobs) else Stopped))
      else None
    case AnnounceTargets(order) =>
      if node.pc.NextBlob? && node.pc.blobs != [] && Lists(order, PendingPeers(node.db, node.pc.blobs[0].id)) then
        Some(node.(pc := NextPeer(Announcer(node.pc.peers, node.pc.blobs[1..], node.pc.blobs[0], order))))
      else None
    case AnnounceNext => AdvanceAnnouncer(node)
    case OfferFails =>
      if node.pc.Offering? then Some(node.(pc := NextPeer(node.pc.a))) else None
  }

  // ---- Steps of the network ------------------------------------------------------

  /** What a user hands to `add_blob`: the stored key, the text, and the optional fields. */
  datatype NewBlob = NewBlob(owner: Uuid, privateKey: string, text: Bytes,
                             contentType: Option<string>, metadata: Option<string>)

  datatype Step =
    | Local(step: LocalStep)
    | AddBlob(id: Uuid, input: NewBlob, randoms: seq<nat>)
    | ServeSelect(id: Uuid)
    | ServeMark(id: Uuid)
    | OfferCheck
    | OfferEnqueue

  function Put(s: Network, n: NodeId, node: Node): Network {
    s.(nodes := s.nodes[n := node])
  }

  /** The row and its history that `add_blob` makes, or `None` when the stored key does not decode. */
  function MintBlob(sha: Bytes -> Hash, origin: NodeId, id: Uuid, input: NewBlob, randoms: seq<nat>): (r: Option<Mint>)
    requires |randoms| == ChunkCount(|input.text|)
  {
    match TryFrom(input.privateKey)
    case Err(_) => None
    case Ok(key) =>
      WellFormedUsable(key);
      var content := Encrypted(input.text, key, randoms);
      var meta := BlobMetadata(id, sha(content), input.contentType, |content|,
                               input.owner, EncodedPublicKey(key.publicKey), input.metadata);
      Some(Mint(origin, meta, content, input.text, key, randoms))
  }

  function MintedRow(mint: Mint): Row {
    Row(mint.meta, mint.content, false)
  }

  /** What is left of `add_blob` once the row is there: nothing when the row cannot be read back. */
  function AfterInsert(mint: Mint): multiset<Op> {
    if Readable(MintedRow(mint)) then multiset{EnqueueAdded(Entry(mint.meta.id, mint.meta.hash))} else multiset{}
  }

  /** The first statement of `add_blob`, with a fresh id: the row is inserted, and then read back. */
  function Add(cfg: Config, s: Network, n: NodeId, id: Uuid, input: NewBlob, randoms: seq<nat>): Option<Network>
    requires n in s.nodes
  {
    if id in s.minted || |randoms| != ChunkCount(|input.text|) then None
    else
      match MintBlob(cfg.sha, n, id, input, randoms)
      case None => None
      case Some(mint) =>
        match InsertBlob(s.nodes[n].db, MintedRow(mint))
        case None => None
        case Some(db) =>
          var node := s.nodes[n].(db := db, ops := s.nodes[n].ops + AfterInsert(mint));
          Some(Put(s, n, node).(minted := s.minted[id := mint]))
  }

  /** Where a caller stands once its peer has looked the blob up. */
  function LookUp(db: Database, id: Uuid, peer: NodeId, rest: seq<NodeId>): Phase {
    match Reply(db, id)
    case Found(blob) => Serving(peer, rest, blob)
    case answer => Answered(peer, rest, answer)
  }

  /** The first statement of `handle_fetch`, at the peer that the task of `n` for `id` calls. */
  function Select(s: Network, n: NodeId, id: Uuid): Option<Network>
    requires n in s.nodes
  {
    var node := s.nodes[n];
    if id in node.tasks && node.tasks[id].phase.Calling? && node.tasks[id].phase.peer in s.nodes then
      var Calling(peer, rest) := node.tasks[id].phase;
      Some(Put(s, n, SetPhase(node, id, LookUp(s.nodes[peer].db, id, peer, rest))))
    else None
  }

  /** The second statement of `handle_fetch`, after which the reply is on its way. */
  function Mark(s: Network, n: NodeId, id: Uuid): Option<Network>
    requires n in s.nodes
  {
    var node := s.nodes[n];
    if id in node.tasks && node.tasks[id].phase.Serving? && node.tasks[id].phase.peer in s.nodes then
      var Serving(peer, rest, blob) := node.tasks[id].phase;
      var there := s.nodes[peer];
      var s1 := Put(s, peer, there.(db := SetStatus(there.db, id, n, Completed)));
      Some(Put(s1, n, SetPhase(s1.nodes[n], id, Answered(peer, rest, Found(blob)))))
    else None
  }

  /** The existence check of `handle_announce`; a blob already live is acknowledged at once. */
  function Check(s: Network, n: NodeId): Option<Network>
    requires n in s.nodes
  {
    var node := s.nodes[n];
    if node.pc.Offering? && node.pc.to in s.nodes then
      var Offering(a, to) := node.pc;
      Some(Put(s, n, node.(pc := if IsLive(s.nodes[to].db, a.current.id) then Acked(a, to) else Offered(a, to))))
    else None
  }

  /** `handle_announce` queues the blob and accepts. */
  function Accept(s: Network, n: NodeId): Option<Network>
    requires n in s.nodes
  {
    var node := s.nodes[n];
    if node.pc.Offered? && node.pc.to in s.nodes then
      var Offered(a, to) := node.pc;
      var there := s.nodes[to];
      var s1 := Put(s, to, there.(queue := Enqueue(there.queue, a.current)));
      Some(Put(s1, n, s1.nodes[n].(pc := Acked(a, to))))
    else None
  }

  /** The step of node `n`, or `None` where it is not possible. */
  function Apply(cfg: Config, s: Network, n: NodeId, step: Step): (r: Option<Network>) {
    if n !in s.nodes then None
    else
      match step
      case Local(local) =>
        (match StepNode(cfg, cfg.maxSyncs(n), s.nodes[n], local)
         case None => None
         case Some(node) => Some(Put(s, n, node)))
      case AddBlob(id, input, randoms) => Add(cfg, s, n, id, input, randoms)
      case ServeSelect(id) => Select(s, n, id)
      case ServeMark(id) => Mark(s, n, id)
      case OfferCheck => Check(s, n)
      case OfferEnqueue => Accept(s, n)
  }

  /** A step together with the node that takes it. */
  datatype Event = Event(node: NodeId, step: Step)

  ghost predicate Next(cfg: Config, s: Network, e: Event, s': Network) {
    Apply(cfg, s, e.node, e.step) == Some(s')
  }

  /** `states` is what `events` make of its first state, one after the other. */
  ghost predicate IsRun(cfg: Config, states: seq<Network>, events: seq<Event>) {
    && |states| == |events| + 1
    && forall i | 0 <= i < |events| :: Next(cfg, states[i], events[i], states[i + 1])
  }

  ghost predicate Reachable(cfg: Config, s: Network) {
    exists states: seq<Network>, events: seq<Event> ::
      IsRun(cfg, states, events) && Init(cfg, states[0]) && states[|events|] == s
  }
}

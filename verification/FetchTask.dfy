// One fetch task of `fetch_and_store_blob`, statement by statement, so that other
// activities can come in between; and the same task run on its own.
module FetchTask {
  import opened Wrappers
  import opened LittleEndian
  import opened Store

  /** The outcome of calling a peer: Ok(Some), Ok(None) or Err. */
  datatype Answer = Found(blob: ProtoBlob) | NotFound | CallError

  /** How a task ends. Only `Conflict` is an error: the INSERT met a taken primary key. */
  datatype FetchResult = AlreadyPresent | Stored(source: NodeId) | Exhausted | Conflict

  /** What the task does next; `rest` are the peers it has not tried yet. */
  datatype Phase =
    | Spawned
    | Checking(rest: seq<NodeId>)
    | Marking(rest: seq<NodeId>)
    | Trying(rest: seq<NodeId>)
    | Calling(peer: NodeId, rest: seq<NodeId>)
    | Serving(peer: NodeId, rest: seq<NodeId>, blob: ProtoBlob)
    | Answered(peer: NodeId, rest: seq<NodeId>, answer: Answer)
    | Storing(peer: NodeId, meta: BlobMetadata, content: Bytes)
    | Completing(peer: NodeId)
    | Finished(result: FetchResult)

  /** `tombstone` records whether the existence check met a deleted row. */
  datatype Task = Task(expected: Hash, tombstone: bool, phase: Phase)

  /** Waiting for another party: for the lock, for a peer, or for the end of the round. */
  predicate Waiting(phase: Phase) {
    phase.Spawned? || phase.Calling? || phase.Serving? || phase.Finished?
  }

  /** The next statement of the task on its own node. */
  function Advance(sha: Bytes -> Hash, db: Database, id: Uuid, task: Task): (r: (Database, Task))
    requires !Waiting(task.phase)
  {
    match task.phase
    case Checking(peers) =>
      if IsLive(db, id) then (db, task.(phase := Marking(peers)))
      else (db, task.(tombstone := id in db.blobs, phase := Trying(peers)))
    case Marking(rest) =>
      if rest == [] then (db, task.(phase := Finished(AlreadyPresent)))
      else (StartSync(db, id, rest[0]), task.(phase := Marking(rest[1..])))
    case Trying(rest) =>
      if rest == [] then (db, task.(phase := Finished(Exhausted)))
      else (StartSync(db, id, rest[0]), task.(phase := Calling(rest[0], rest[1..])))
    case Answered(peer, rest, answer) =>
      if !answer.Found? then (SetStatus(db, id, peer, Failed), task.(phase := Trying(rest)))
      else if answer.blob.metadata.None? then (db, task.(phase := Trying(rest)))
      else if !Verified(sha, answer.blob, task.expected) then
        (SetStatus(db, id, peer, Failed), task.(phase := Trying(rest)))
      else (db, task.(phase := Storing(peer, answer.blob.metadata.value, answer.blob.content)))
    case Storing(peer, meta, content) =>
      (match InsertBlob(db, Row(meta, content, false))
       case None => (db, task.(phase := Finished(Conflict)))
       case Some(stored) => (stored, task.(phase := Completing(peer))))
    case Completing(peer) =>
      (SetStatus(db, id, peer, Completed), task.(phase := Finished(Stored(peer))))
  }

  /** What `handle_fetch` answers; a row too large to be read makes it fail. */
  function Reply(db: Database, id: Uuid): Answer {
    if !IsLive(db, id) then NotFound
    else if !Readable(db.blobs[id]) then CallError
    else Found(ToProto(db.blobs[id], true))
  }

  /** A bound on the steps a task has still to take once it has listed its peers. */
  function StepsLeft(phase: Phase): nat {
    match phase
    case Spawned => 0
    case Checking(rest) => 5 * |rest| + 3
    case Marking(rest) => |rest| + 2
    case Trying(rest) => 5 * |rest| + 2
    case Calling(_, rest) => 5 * |rest| + 6
    case Serving(_, rest, _) => 5 * |rest| + 5
    case Answered(_, rest, _) => 5 * |rest| + 4
    case Storing(_, _, _) => 3
    case Completing(_) => 2
    case Finished(_) => 1
  }

  // ---- A task on its own -------------------------------------------------------

  /** Marks every peer as pending: what a task does with a blob that is already there. */
  function MarkAll(db: Database, id: Uuid, peers: seq<NodeId>): Database
    decreases |peers|
  {
    if peers == [] then db else MarkAll(StartSync(db, id, peers[0]), id, peers[1..])
  }

  /** The loop over the peers, each giving its answer, until one blob is stored. */
  function TryPeers(sha: Bytes -> Hash, db: Database, id: Uuid, expected: Hash,
                    peers: seq<NodeId>, answers: NodeId -> Answer): (r: (Database, FetchResult))
    decreases |peers|
  {
    if peers == [] then (db, Exhausted)
    else
      var peer, rest := peers[0], peers[1..];
      var started := StartSync(db, id, peer);
      match answers(peer)
      case Found(blob) =>
        if blob.metadata.None? then
          TryPeers(sha, started, id, expected, rest, answers)
        else if !Verified(sha, blob, expected) then
          TryPeers(sha, SetStatus(started, id, peer, Failed), id, expected, rest, answers)
        else
          (match InsertBlob(started, ToRow(blob))
           case None => (started, Conflict)
           case Some(stored) => (SetStatus(stored, id, peer, Completed), Stored(peer)))
      case _ =>
        TryPeers(sha, SetStatus(started, id, peer, Failed), id, expected, rest, answers)
  }

  /** `fetch_and_store_blob`, with nothing in between. */
  function Fetch(sha: Bytes -> Hash, db: Database, id: Uuid, expected: Hash,
                 peers: seq<NodeId>, answers: NodeId -> Answer): (r: (Database, FetchResult))
  {
    if IsLive(db, id) then (MarkAll(db, id, peers), AlreadyPresent)
    else TryPeers(sha, db, id, expected, peers, answers)
  }

  /** A step of a task that runs alone: its own next statement, or the answer of the peer called. */
  function SoloStep(sha: Bytes -> Hash, db: Database, id: Uuid, task: Task, answers: NodeId -> Answer): (Database, Task)
    requires task.phase.Calling? || !Waiting(task.phase)
  {
    if task.phase.Calling? then
      (db, task.(phase := Answered(task.phase.peer, task.phase.rest, answers(task.phase.peer))))
    else Advance(sha, db, id, task)
  }

  /** A task running alone ends within `n` steps with the tables and the result given. */
  ghost predicate SoloEnds(sha: Bytes -> Hash, db: Database, id: Uuid, task: Task,
                           answers: NodeId -> Answer, n: nat, end: (Database, FetchResult))
    decreases n
  {
    if task.phase.Finished? then end == (db, task.phase.result)
    else
      && n > 0 && (task.phase.Calling? || !Waiting(task.phase))
      && var (db', task') := SoloStep(sha, db, id, task, answers);
         SoloEnds(sha, db', id, task', answers, n - 1, end)
  }

  lemma {:induction false} SoloMarks(sha: Bytes -> Hash, db: Database, id: Uuid, task: Task, answers: NodeId -> Answer)
    requires task.phase.Marking?
    ensures var rest := task.phase.rest;
            SoloEnds(sha, db, id, task, answers, |rest| + 1, (MarkAll(db, id, rest), AlreadyPresent))
    decreases |task.phase.rest|
  {
    var (db', task') := SoloStep(sha, db, id, task, answers);
    if task.phase.rest != [] {
      SoloMarks(sha, db', id, task', answers);
    }
  }

  lemma {:induction false} SoloTries(sha: Bytes -> Hash, db: Database, id: Uuid, task: Task, answers: NodeId -> Answer)
    requires task.phase.Trying?
    ensures var rest := task.phase.rest;
            SoloEnds(sha, db, id, task, answers, 3 * |rest| + 4, TryPeers(sha, db, id, task.expected, rest, answers))
    decreases |task.phase.rest|
  {
    var rest := task.phase.rest;
    var end := TryPeers(sha, db, id, task.expected, rest, answers);
    if rest != [] {
      var (db1, task1) := SoloStep(sha, db, id, task, answers);
      var (db2, task2) := SoloStep(sha, db1, id, task1, answers);
      var (db3, task3) := SoloStep(sha, db2, id, task2, answers);
      if task3.phase.Trying? {
        SoloTries(sha, db3, id, task3, answers);
      } else {
        var (db4, task4) := SoloStep(sha, db3, id, task3, answers);
        if task4.phase.Completing? {
          var (db5, task5) := SoloStep(sha, db4, id, task4, answers);
          assert SoloEnds(sha, db5, id, task5, answers, 3 * |rest| - 1, end);
        }
        assert SoloEnds(sha, db4, id, task4, answers, 3 * |rest|, end);
      }
      assert SoloEnds(sha, db3, id, task3, answers, 3 * |rest| + 1, end);
      assert SoloEnds(sha, db2, id, task2, answers, 3 * |rest| + 2, end);
      assert SoloEnds(sha, db1, id, task1, answers, 3 * |rest| + 3, end);
    }
  }

  /** The statement-by-statement task, undisturbed, does what the plain loop does. */
  lemma SoloIsFetch(sha: Bytes -> Hash, db: Database, id: Uuid, expected: Hash, peers: seq<NodeId>, answers: NodeId -> Answer)
    ensures SoloEnds(sha, db, id, Task(expected, false, Checking(peers)), answers, 3 * |peers| + 5,
                     Fetch(sha, db, id, expected, peers, answers))
  {
    var task := Task(expected, false, Checking(peers));
    var (db1, task1) := SoloStep(sha, db, id, task, answers);
    if IsLive(db, id) {
      SoloMarks(sha, db1, id, task1, answers);
      SoloLonger(sha, db1, id, task1, answers, |peers| + 1, 3 * |peers| + 4, Fetch(sha, db, id, expected, peers, answers));
    } else {
      SoloTries(sha, db1, id, task1, answers);
    }
  }

  lemma {:induction false} SoloLonger(sha: Bytes -> Hash, db: Database, id: Uuid, task: Task, answers: NodeId -> Answer,
                                      n: nat, m: nat, end: (Database, FetchResult))
    requires n <= m && SoloEnds(sha, db, id, task, answers, n, end)
    ensures SoloEnds(sha, db, id, task, answers, m, end)
    decreases n
  {
    if !task.phase.Finished? {
      var (db', task') := SoloStep(sha, db, id, task, answers);
      SoloLonger(sha, db', id, task', answers, n - 1, m - 1, end);
    }
  }

  // ---- What one undisturbed fetch does to the tables ---------------------------

  /** No peer twice: the keys of a hash map. */
  predicate Distinct(peers: seq<NodeId>) {
    forall i, j | 0 <= i < j < |peers| :: peers[i] != peers[j]
  }

  /** The status that a peer is left with when its answer stored nothing. */
  function StatusAfter(answer: Answer): SyncStatus {
    if answer.Found? && answer.blob.metadata.None? then Pending else Failed
  }

  /** The peer's answer is one the task stores: a blob of which one hash, computed or claimed, is the one expected. */
  predicate Storable(sha: Bytes -> Hash, answer: Answer, expected: Hash) {
    && answer.Found? && answer.blob.metadata.Some?
    && (sha(answer.blob.content) == expected || answer.blob.metadata.value.hash == expected)
  }

  /** The number of peers tried in vain before one with a storable answer. */
  function TriedInVain(sha: Bytes -> Hash, expected: Hash, peers: seq<NodeId>, answers: NodeId -> Answer): (n: nat)
    ensures n <= |peers|
    ensures forall i | 0 <= i < n :: !Storable(sha, answers(peers[i]), expected)
    ensures n < |peers| ==> Storable(sha, answers(peers[n]), expected)
  {
    if peers == [] || Storable(sha, answers(peers[0]), expected) then 0
    else 1 + TriedInVain(sha, expected, peers[1..], answers)
  }

  /** The number of peers the loop gets to. */
  function Tried(sha: Bytes -> Hash, expected: Hash, peers: seq<NodeId>, answers: NodeId -> Answer): (n: nat)
    ensures n <= |peers|
  {
    var n := TriedInVain(sha, expected, peers, answers);
    if n < |peers| then n + 1 else n
  }

  /** The tables after one peer answered in vain. */
  function AfterVainTry(db: Database, id: Uuid, peer: NodeId, answer: Answer): Database {
    var started := StartSync(db, id, peer);
    if StatusAfter(answer) == Pending then started else SetStatus(started, id, peer, Failed)
  }

  lemma VainTry(sha: Bytes -> Hash, db: Database, id: Uuid, expected: Hash, peers: seq<NodeId>, answers: NodeId -> Answer)
    requires peers != [] && !Storable(sha, answers(peers[0]), expected)
    ensures TryPeers(sha, db, id, expected, peers, answers) ==
            TryPeers(sha, AfterVainTry(db, id, peers[0], answers(peers[0])), id, expected, peers[1..], answers)
  {
  }

  /**
   * The loop stores the blob of the first peer whose answer can be stored, and no other
   * row changes; it runs out of peers exactly when no answer can be stored; it fails
   * exactly when the id of that blob is taken.
   */
  lemma {:induction false} FetchStores(sha: Bytes -> Hash, db: Database, id: Uuid, expected: Hash,
                                       peers: seq<NodeId>, answers: NodeId -> Answer)
    ensures var (after, result) := TryPeers(sha, db, id, expected, peers, answers);
            var n := TriedInVain(sha, expected, peers, answers);
            if n == |peers| then result == Exhausted && after.blobs == db.blobs
            else
              var row := ToRow(answers(peers[n]).blob);
              if row.meta.id in db.blobs then result == Conflict && after.blobs == db.blobs
              else result == Stored(peers[n]) && after.blobs == db.blobs[row.meta.id := row]
    decreases |peers|
  {
    if peers != [] && !Storable(sha, answers(peers[0]), expected) {
      VainTry(sha, db, id, expected, peers, answers);
      FetchStores(sha, AfterVainTry(db, id, peers[0], answers(peers[0])), id, expected, peers[1..], answers);
    }
  }

  /** Entries of other blobs, and of peers the loop does not get to, stay as they were. */
  lemma {:induction false} FetchTouches(sha: Bytes -> Hash, db: Database, id: Uuid, expected: Hash,
                                        peers: seq<NodeId>, answers: NodeId -> Answer, key: Key)
    requires key.blob != id || key.peer !in peers[..Tried(sha, expected, peers, answers)]
    ensures SameEntry(db, TryPeers(sha, db, id, expected, peers, answers).0, key)
    decreases |peers|
  {
    if peers != [] {
      assert peers[0] in peers[..Tried(sha, expected, peers, answers)];
      if !Storable(sha, answers(peers[0]), expected) {
        var tried := Tried(sha, expected, peers[1..], answers);
        assert peers[..tried + 1] == [peers[0]] + peers[1..][..tried];
        VainTry(sha, db, id, expected, peers, answers);
        FetchTouches(sha, AfterVainTry(db, id, peers[0], answers(peers[0])), id, expected, peers[1..], answers, key);
      }
    }
  }

  /**
   * Of the peers the loop gets to, those that answered in vain are failed, or pending when
   * only the metadata was missing; the one whose blob was stored is the only one completed.
   */
  lemma {:induction false} FetchMarks(sha: Bytes -> Hash, db: Database, id: Uuid, expected: Hash,
                                      peers: seq<NodeId>, answers: NodeId -> Answer, i: nat)
    requires Distinct(peers) && i < Tried(sha, expected, peers, answers)
    ensures var (after, result) := TryPeers(sha, db, id, expected, peers, answers);
            Key(id, peers[i]) in after.status &&
            after.status[Key(id, peers[i])] ==
              if i < TriedInVain(sha, expected, peers, answers) then StatusAfter(answers(peers[i]))
              else if result.Stored? then Completed else Pending
    decreases |peers|
  {
    if !Storable(sha, answers(peers[0]), expected) {
      var next := AfterVainTry(db, id, peers[0], answers(peers[0]));
      VainTry(sha, db, id, expected, peers, answers);
      if i > 0 {
        FetchMarks(sha, next, id, expected, peers[1..], answers, i - 1);
      } else {
        assert peers[0] !in peers[1..];
        FetchTouches(sha, next, id, expected, peers[1..], answers, Key(id, peers[0]));
      }
    }
  }

  // ---- The whole fetch -------------------------------------------------------------

  /**
   * A fetch ends with nothing to do exactly when there is a row for the blob that is not
   * deleted; a deleted row does not count. It then marks every peer as pending.
   */
  lemma FetchPresent(sha: Bytes -> Hash, db: Database, id: Uuid, expected: Hash, peers: seq<NodeId>,
                     answers: NodeId -> Answer, key: Key)
    ensures Fetch(sha, db, id, expected, peers, answers).1 == AlreadyPresent <==>
            id in db.blobs && !db.blobs[id].deleted
    ensures id in db.blobs && !db.blobs[id].deleted ==>
              var after := Fetch(sha, db, id, expected, peers, answers).0;
              && after.blobs == db.blobs
              && if key.blob == id && key.peer in peers then key in after.status && after.status[key] == Pending
                 else SameEntry(db, after, key)
  {
    FetchStores(sha, db, id, expected, peers, answers);
    MarkAllExact(db, id, peers, key);
  }

  /** Otherwise, a deleted row or none, it stores the first blob it can and no other row changes. */
  lemma FetchAbsent(sha: Bytes -> Hash, db: Database, id: Uuid, expected: Hash, peers: seq<NodeId>, answers: NodeId -> Answer)
    requires !(id in db.blobs && !db.blobs[id].deleted)
    ensures var (after, result) := Fetch(sha, db, id, expected, peers, answers);
            var n := TriedInVain(sha, expected, peers, answers);
            if n == |peers| then result == Exhausted && after.blobs == db.blobs
            else
              var row := ToRow(answers(peers[n]).blob);
              if row.meta.id in db.blobs then result == Conflict && after.blobs == db.blobs
              else result == Stored(peers[n]) && after.blobs == db.blobs[row.meta.id := row]
  {
    FetchStores(sha, db, id, expected, peers, answers);
  }

  /** ... and each peer it gets to ends as its answer calls for, the others as they were. */
  lemma FetchAbsentMarks(sha: Bytes -> Hash, db: Database, id: Uuid, expected: Hash, peers: seq<NodeId>,
                         answers: NodeId -> Answer, i: nat)
    requires !(id in db.blobs && !db.blobs[id].deleted) && Distinct(peers) && i < |peers|
    ensures var (after, result) := Fetch(sha, db, id, expected, peers, answers);
            var key := Key(id, peers[i]);
            if i < Tried(sha, expected, peers, answers) then
              key in after.status &&
              after.status[key] ==
                if i == TriedInVain(sha, expected, peers, answers) then (if result.Stored? then Completed else Pending)
                else if answers(peers[i]).Found? && answers(peers[i]).blob.metadata.None? then Pending
                else Failed
            else SameEntry(db, after, key)
  {
    if i < Tried(sha, expected, peers, answers) {
      FetchMarks(sha, db, id, expected, peers, answers, i);
    } else {
      FetchTouches(sha, db, id, expected, peers, answers, Key(id, peers[i]));
    }
  }

  // ---- What is stored ------------------------------------------------------------

  /** The tables have the blob that was asked for, live and with the hash that was asked for. */
  predicate HasAsked(sha: Bytes -> Hash, db: Database, id: Uuid, expected: Hash) {
    IsLive(db, id) && db.blobs[id].meta.hash == expected == sha(db.blobs[id].content)
  }

  /** The answer is the blob asked for, by its id and by both hashes. */
  predicate IsAsked(sha: Bytes -> Hash, answer: Answer, id: Uuid, expected: Hash) {
    && answer.Found? && answer.blob.metadata.Some?
    && answer.blob.metadata.value.id == id
    && answer.blob.metadata.value.hash == expected == sha(answer.blob.content)
  }

  /**
   * Whatever the tables and the peers: a fetch that stores leaves the blob that was asked for
   * exactly when the answer of the peer it stored from has the id, the claimed hash and the
   * computed hash asked for. The code looks at no id, and is content with either hash.
   */
  lemma StoredIsAsked(sha: Bytes -> Hash, db: Database, id: Uuid, expected: Hash,
                      peers: seq<NodeId>, answers: NodeId -> Answer)
    requires Fetch(sha, db, id, expected, peers, answers).1.Stored?
    ensures var (after, result) := Fetch(sha, db, id, expected, peers, answers);
            && Storable(sha, answers(result.source), expected)
            && (HasAsked(sha, after, id, expected) <==> IsAsked(sha, answers(result.source), id, expected))
  {
    FetchStores(sha, db, id, expected, peers, answers);
  }

  /** A blob whose content has another digest is stored when its claimed hash is the one expected. */
  lemma WrongContentStored()
    ensures var (sha, meta) := ((bs: Bytes) => if bs == [] then "0" else "1",
                                BlobMetadata(7, "0", None, 1, 0, "", None));
            var (after, result) := Fetch(sha, Database(map[], map[]), 7, "0", [1], peer => Found(ProtoBlob(Some(meta), [65])));
            result == Stored(1) && after.blobs == map[7 := Row(meta, [65], false)] && sha([65]) != "0"
  {
    var meta := BlobMetadata(7, "0", None, 1, 0, "", None);
    FetchOne((bs: Bytes) => if bs == [] then "0" else "1", 7, "0", 1, meta, [65]);
  }

  /** A blob under another id is stored under that id, and the one asked for is still missing. */
  lemma WrongIdStored()
    ensures var (sha, meta) := ((bs: Bytes) => "0", BlobMetadata(8, "0", None, 1, 0, "", None));
            var (after, result) := Fetch(sha, Database(map[], map[]), 7, "0", [1], peer => Found(ProtoBlob(Some(meta), [65])));
            result == Stored(1) && after.blobs == map[8 := Row(meta, [65], false)] && 7 !in after.blobs
  {
    var meta := BlobMetadata(8, "0", None, 1, 0, "", None);
    FetchOne((bs: Bytes) => "0", 7, "0", 1, meta, [65]);
  }

  /** With one peer and an empty table, a claimed hash as expected is enough to be stored. */
  lemma FetchOne(sha: Bytes -> Hash, id: Uuid, expected: Hash, peer: NodeId, meta: BlobMetadata, content: Bytes)
    requires meta.hash == expected
    ensures var (after, result) :=
              Fetch(sha, Database(map[], map[]), id, expected, [peer], peer => Found(ProtoBlob(Some(meta), content)));
            result == Stored(peer) && after.blobs == map[meta.id := Row(meta, content, false)]
  {
    var answers := (peer: NodeId) => Found(ProtoBlob(Some(meta), content));
    assert TriedInVain(sha, expected, [peer], answers) == 0;
    FetchStores(sha, Database(map[], map[]), id, expected, [peer], answers);
  }

  /**
   * A blob that is already there is marked pending for every peer, whatever was recorded:
   * a `completed` entry does not survive. Nothing else changes.
   */
  lemma {:induction false} MarkAllExact(db: Database, id: Uuid, peers: seq<NodeId>, key: Key)
    ensures var after := MarkAll(db, id, peers);
            && after.blobs == db.blobs
            && if key.blob == id && key.peer in peers then key in after.status && after.status[key] == Pending
               else SameEntry(db, after, key)
    decreases |peers|
  {
    if peers != [] {
      MarkAllExact(StartSync(db, id, peers[0]), id, peers[1..], key);
      assert peers == [peers[0]] + peers[1..];
    }
  }

  predicate SameEntry(a: Database, b: Database, key: Key) {
    (key in a.status <==> key in b.status) && (key in a.status ==> a.status[key] == b.status[key])
  }
}

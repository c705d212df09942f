/**
 The hour-block store: batch, window and block rows in the database, minute and block
 objects in the object store, and every worker that touches them (ingest, retention,
 compaction, source-delete retry, superseded sweep, empty-block deletion, orphan sweep).

 `Apply` executes one atomic action: a database transaction, a single object-store call,
 or one read of a worker that keeps what it read in memory. A worker may stop between any
 two of its actions, so the sequences of events are all interleavings with all crashes.
 The advisory lock is not used: nothing below needs it.
 */
module HourBlocks {
  import opened Wrappers

  type Bid = string
  type BlockId = string
  type Time = int

  const BLOCK_WINDOW := 3600
  const SUPERSEDED_GRACE := 900
  const ORPHAN_GRACE := 900
  /** Timeout of the context that one compaction and sweep round runs under. */
  const ROUND_TIMEOUT := 180
  /** How long a reader may hold a block key: the grace period counts from when the superseding round began. */
  const READER_GRACE := SUPERSEDED_GRACE - ROUND_TIMEOUT

  // ----- Rows and objects -----

  datatype Key =
    | MinuteKey(session: string, bid: Bid)
    | BlockKey(session: string, bucket: Time, blockId: BlockId)

  datatype Payload = Payload(session: string, batchId: Bid, body: string)

  datatype Member = Member(bid: Bid, payload: Payload)

  datatype Object =
    | MinuteObject(payload: Payload)
    | BlockObject(members: seq<Member>, modified: Time)

  datatype BatchRow = BatchRow(
    session: string, start: Time, end: Time, objectKey: Key,
    blockId: Option<BlockId>, source: Option<Key>, compactedAt: Option<Time>)

  datatype WindowRow = WindowRow(bid: Bid, objectKey: Key)

  datatype BlockStatus = Active | Superseded | Deleting

  datatype BlockRow = BlockRow(
    session: string, bucket: Time, objectKey: Key, version: nat,
    status: BlockStatus, supersededAt: Option<Time>, replacedBy: Option<BlockId>)

  // ----- What workers hold in memory -----

  /** A batch row that a compaction read, and the object key it had then. */
  datatype Source = Source(bid: Bid, key: Key)

  datatype Phase =
    | Reading
    | Loaded(oldMembers: seq<Member>)
    | Classified
    | Uploaded(blockId: BlockId, uploadedAt: Time)

  /** A compaction of one bucket; `begun` is the clock it read first, which it later writes into the rows. */
  datatype Job = Job(
    session: string, bucket: Time, begun: Time, prev: Option<BlockId>, version: nat, phase: Phase,
    members: seq<Member>, removed: seq<Bid>, pending: seq<Source>, sources: seq<Key>)
  {
    /** The round's context is at least as old as the compaction. */
    function Deadline(): Time {
      begun + ROUND_TIMEOUT
    }
  }

  datatype Sweep = Sweep(
    startedAt: Time, listed: map<Key, Time>, plucked: Option<Time>, registered: set<Key>)

  /** Database rows and stored objects, with the history the properties speak about. */
  datatype Store = Store(
    batches: map<Bid, BatchRow>,
    windows: map<nat, WindowRow>,
    blocks: map<BlockId, BlockRow>,
    objects: map<Key, Object>,
    ingested: map<Bid, Payload>,    // history: what every batch was ingested with
    versions: map<BlockId, nat>,    // history: the version of every block ever built
    registered: set<BlockId>)       // history: every block that ever had a row

  datatype State = State(
    now: Time,
    db: Store,
    jobs: map<nat, Job>,
    sweeps: map<nat, Sweep>,
    expiring: map<Bid, Key>,        // batch rows retention has read as not compacted
    doomed: set<Key>)               // object keys some worker is about to delete

  const INIT := State(0, Store(map[], map[], map[], map[], map[], map[], {}), map[], map[], map[], {})

  datatype Event =
    | Tick(dt: nat)
    | Ingest(bid: Bid, session: string, start: Time, end: Time, body: string, windowIds: set<nat>)
    | PutThenRollback(bid: Bid, session: string, body: string)
    | DropWindows(ids: set<nat>)
    | RetentionRead(bid: Bid)
    | RetentionDrop(bid: Bid)
    | Begin(pid: nat, session: string, bucket: Time, begun: Time, prev: Option<BlockId>, newBids: seq<Bid>)
    | ReadBlock(pid: nat)
    | Classify(pid: nat, cutoff: Time)
    | LoadFresh(pid: nat, readable: bool)
    | Upload(pid: nat, blockId: BlockId)
    | Crash(pid: nat)
    | DiscardUpload(pid: nat)
    | Commit(pid: nat)
    | MarkEmpty(pid: nat)
    | ReadSource(bid: Bid)
    | ClearSource(bid: Bid, key: Key)
    | DeleteDoomed(key: Key)
    | DeleteBlockObject(blockId: BlockId)
    | DropBlockRow(blockId: BlockId)
    | OrphanList(pid: nat)
    | OrphanPluck(pid: nat)
    | OrphanDelete(pid: nat, key: Key)

  // ----- Reading -----

  function Payloads(members: seq<Member>): seq<Payload> {
    seq(|members|, i requires 0 <= i < |members| => members[i].payload)
  }

  /** One object is either a minute object or a block; a key that looks like a block is unzipped. */
  function LoadBatches(objects: map<Key, Object>, key: Key): Option<seq<Payload>> {
    if key !in objects then None
    else if key.BlockKey? then
      (if objects[key].BlockObject? then Some(Payloads(objects[key].members)) else None)
    else
      (if objects[key].MinuteObject? then Some([objects[key].payload]) else None)
  }

  /** Index by batch id; a later duplicate overwrites an earlier one. */
  function BatchIndex(batches: seq<Payload>): map<Bid, Payload> {
    if batches == [] then map[]
    else
      var last := batches[|batches| - 1];
      BatchIndex(batches[..|batches| - 1])[last.batchId := last]
  }

  function ResolveBatch(row: WindowRow, batches: seq<Payload>): Option<Payload> {
    if row.bid != "" then
      var index := BatchIndex(batches);
      if row.bid in index then Some(index[row.bid]) else None
    else if |batches| == 1 then Some(batches[0])
    else None
  }

  function ReadWindow(objects: map<Key, Object>, row: WindowRow): Option<Payload> {
    match LoadBatches(objects, row.objectKey)
    case None => None
    case Some(batches) => ResolveBatch(row, batches)
  }

  // ----- Actions on the store -----

  predicate InBucket(row: BatchRow, session: string, bucket: Time) {
    row.session == session && bucket <= row.start < bucket + BLOCK_WINDOW
  }

  ghost predicate HasActive(st: Store, session: string, bucket: Time) {
    exists id :: IsActive(st.blocks, id) && st.blocks[id].session == session && st.blocks[id].bucket == bucket
  }

  predicate IsActive(blocks: map<BlockId, BlockRow>, id: BlockId) {
    id in blocks && blocks[id].status == Active
  }

  predicate HasWindows(st: Store, bid: Bid) {
    exists w :: w in st.windows && st.windows[w].bid == bid
  }

  function Ids(members: seq<Member>): set<Bid> {
    set m | m in members :: m.bid
  }

  function IngestBatch(st: Store, bid: Bid, session: string, start: Time, end: Time,
                       body: string, windowIds: set<nat>): Store
  {
    var key := MinuteKey(session, bid);
    var payload := Payload(session, bid, body);
    st.(batches := st.batches[bid := BatchRow(session, start, end, key, None, None, None)],
        windows := st.windows + (map w | w in windowIds :: WindowRow(bid, key)),
        objects := st.objects[key := MinuteObject(payload)],
        ingested := st.ingested[bid := payload])
  }

  /** Whether a block member leaves the block: its row is gone, or expired without windows. */
  predicate Expired(st: Store, blockId: BlockId, bid: Bid, cutoff: Time) {
    bid !in st.batches || st.batches[bid].blockId != Some(blockId) ||
    (st.batches[bid].end < cutoff && !HasWindows(st, bid))
  }

  function Kept(st: Store, blockId: BlockId, members: seq<Member>, cutoff: Time): seq<Member> {
    if members == [] then []
    else
      var m := members[|members| - 1];
      var rest := Kept(st, blockId, members[..|members| - 1], cutoff);
      if Expired(st, blockId, m.bid, cutoff) then rest else rest + [m]
  }

  function Removed(st: Store, blockId: BlockId, members: seq<Member>, cutoff: Time): seq<Bid> {
    if members == [] then []
    else
      var m := members[|members| - 1];
      var rest := Removed(st, blockId, members[..|members| - 1], cutoff);
      if Expired(st, blockId, m.bid, cutoff) then rest + [m.bid] else rest
  }

  function PutBlock(st: Store, j: Job, blockId: BlockId, now: Time): Store {
    st.(objects := st.objects[BlockKey(j.session, j.bucket, blockId) := BlockObject(j.members, now)],
        versions := st.versions[blockId := j.version])
  }

  function Repointed(row: BatchRow, blockId: BlockId, key: Key, at: Time): BatchRow {
    if row.source.None? && row.compactedAt.None? then
      row.(blockId := Some(blockId), objectKey := key, source := Some(row.objectKey), compactedAt := Some(at))
    else
      row.(blockId := Some(blockId), objectKey := key)
  }

  function RepointBatches(batches: map<Bid, BatchRow>, ids: set<Bid>, blockId: BlockId, key: Key, at: Time)
    : map<Bid, BatchRow>
  {
    map b | b in batches :: if b in ids then Repointed(batches[b], blockId, key, at) else batches[b]
  }

  function RepointWindows(windows: map<nat, WindowRow>, ids: set<Bid>, key: Key): map<nat, WindowRow> {
    map w | w in windows :: if windows[w].bid in ids then windows[w].(objectKey := key) else windows[w]
  }

  function Retire(blocks: map<BlockId, BlockRow>, prev: Option<BlockId>, newId: BlockId, at: Time)
    : map<BlockId, BlockRow>
  {
    if prev.Some? && prev.value in blocks then
      blocks[prev.value := blocks[prev.value].(status := Superseded, supersededAt := Some(at),
        replacedBy := Some(newId))]
    else blocks
  }

  /** The transaction goes through while its context lives and the old block is still active; without an
      old block, the unique index must find no active one. */
  ghost predicate CommitAllowed(st: Store, j: Job, now: Time) {
    now <= j.Deadline() &&
    match j.prev
    case None => !HasActive(st, j.session, j.bucket)
    case Some(a) => IsActive(st.blocks, a)
  }

  /** All times it writes are the time the compaction began, not the time of the transaction. */
  function Register(st: Store, j: Job, id: BlockId): Store {
    var key := BlockKey(j.session, j.bucket, id);
    var ids := Ids(j.members);
    st.(batches := RepointBatches(st.batches, ids, id, key, j.begun) - (set b | b in j.removed),
        windows := RepointWindows(st.windows, ids, key),
        blocks := Retire(st.blocks, j.prev, id, j.begun)[id :=
          BlockRow(j.session, j.bucket, key, j.version, Active, None, None)],
        registered := st.registered + {id})
  }

  function MarkDeleting(st: Store, j: Job, a: BlockId): Store
    requires a in st.blocks
  {
    st.(batches := st.batches - (set b | b in j.removed), blocks := st.blocks[a := st.blocks[a].(status := Deleting)])
  }

  /** Objects of `deleting` blocks go at once, those of superseded blocks after the grace period. */
  predicate BlockObjectDeletable(blk: BlockRow, now: Time) {
    blk.status == Deleting ||
    (blk.status == Superseded && blk.supersededAt.Some? && blk.supersededAt.value < now - SUPERSEDED_GRACE)
  }

  // ----- Actions of the workers -----

  function Sources(batches: map<Bid, BatchRow>, bids: seq<Bid>): seq<Source> {
    seq(|bids|, i requires 0 <= i < |bids| =>
      Source(bids[i], if bids[i] in batches then batches[bids[i]].objectKey else MinuteKey("", "")))
  }

  ghost function BeginStep(s: State, pid: nat, session: string, bucket: Time, begun: Time,
                           prev: Option<BlockId>, newBids: seq<Bid>): State
  {
    if pid in s.jobs || begun > s.now || bucket % BLOCK_WINDOW != 0 ||
       !(forall b :: b in newBids ==>
           b in s.db.batches && s.db.batches[b].blockId.None? && InBucket(s.db.batches[b], session, bucket)) then s
    else
      var pending := Sources(s.db.batches, newBids);
      match prev
      case None =>
        if HasActive(s.db, session, bucket) then s
        else s.(jobs := s.jobs[pid :=
          Job(session, bucket, begun, None, 1, Classified, [], [], pending, [])])
      case Some(a) =>
        if !IsActive(s.db.blocks, a) || s.db.blocks[a].session != session || s.db.blocks[a].bucket != bucket then s
        else s.(jobs := s.jobs[pid :=
          Job(session, bucket, begun, prev, s.db.blocks[a].version + 1, Reading, [], [], pending, [])])
  }

  function ReadBlockStep(s: State, pid: nat): State {
    if pid !in s.jobs || s.jobs[pid].phase != Reading || s.jobs[pid].prev.None? then s
    else
      var j := s.jobs[pid];
      var key := BlockKey(j.session, j.bucket, j.prev.value);
      if key in s.db.objects && s.db.objects[key].BlockObject? then
        s.(jobs := s.jobs[pid := j.(phase := Loaded(s.db.objects[key].members))])
      else s.(jobs := s.jobs - {pid})
  }

  function ClassifyStep(s: State, pid: nat, cutoff: Time): State {
    if pid !in s.jobs || !s.jobs[pid].phase.Loaded? || s.jobs[pid].prev.None? then s
    else
      var j := s.jobs[pid];
      var kept := Kept(s.db, j.prev.value, j.phase.oldMembers, cutoff);
      var removed := Removed(s.db, j.prev.value, j.phase.oldMembers, cutoff);
      s.(jobs := s.jobs[pid := j.(phase := Classified, members := kept, removed := removed)])
  }

  /** A source that cannot be read is skipped: its batch stays uncompacted. */
  function LoadFreshStep(s: State, pid: nat, readable: bool): State {
    if pid !in s.jobs || s.jobs[pid].phase != Classified || s.jobs[pid].pending == [] then s
    else
      var j := s.jobs[pid];
      var src := j.pending[0];
      if readable && src.key in s.db.objects && s.db.objects[src.key].MinuteObject? then
        s.(jobs := s.jobs[pid := j.(
          pending := j.pending[1..],
          members := j.members + [Member(src.bid, s.db.objects[src.key].payload)],
          sources := j.sources + [src.key])])
      else
        s.(jobs := s.jobs[pid := j.(pending := j.pending[1..])])
  }

  predicate ReadyToBuild(j: Job) {
    j.phase == Classified && j.pending == [] && j.members != [] && (j.sources != [] || j.removed != [])
  }

  function UploadStep(s: State, pid: nat, blockId: BlockId): State {
    if pid !in s.jobs || !ReadyToBuild(s.jobs[pid]) || blockId in s.db.versions || s.now > s.jobs[pid].Deadline() then s
    else
      var j := s.jobs[pid];
      s.(db := PutBlock(s.db, j, blockId, s.now), jobs := s.jobs[pid := j.(phase := Uploaded(blockId, s.now))])
  }

  function DiscardUploadStep(s: State, pid: nat): State {
    if pid !in s.jobs || !s.jobs[pid].phase.Uploaded? then s
    else
      var j := s.jobs[pid];
      s.(db := s.db.(objects := s.db.objects - {BlockKey(j.session, j.bucket, j.phase.blockId)}),
         jobs := s.jobs - {pid})
  }

  ghost function CommitStep(s: State, pid: nat): State {
    if pid !in s.jobs || !s.jobs[pid].phase.Uploaded? then s
    else
      var j := s.jobs[pid];
      if CommitAllowed(s.db, j, s.now) then
        s.(db := Register(s.db, j, j.phase.blockId), jobs := s.jobs - {pid},
           doomed := s.doomed + (set k | k in j.sources))
      else DiscardUploadStep(s, pid)
  }

  function MarkEmptyStep(s: State, pid: nat): State {
    if pid !in s.jobs || s.jobs[pid].phase != Classified || s.jobs[pid].pending != [] ||
       s.jobs[pid].members != [] || s.jobs[pid].prev.None? then s
    else if IsActive(s.db.blocks, s.jobs[pid].prev.value) then
      s.(db := MarkDeleting(s.db, s.jobs[pid], s.jobs[pid].prev.value), jobs := s.jobs - {pid})
    else s.(jobs := s.jobs - {pid})
  }

  function OrphanListStep(s: State, pid: nat): State {
    if pid in s.sweeps then s
    else
      s.(sweeps := s.sweeps[pid := Sweep(s.now,
        map k | k in s.db.objects && k.BlockKey? && s.db.objects[k].BlockObject? ::
          s.db.objects[k].modified, None, {})])
  }

  function OrphanPluckStep(s: State, pid: nat): State {
    if pid !in s.sweeps || s.sweeps[pid].plucked.Some? then s
    else
      s.(sweeps := s.sweeps[pid := s.sweeps[pid].(
        plucked := Some(s.now), registered := set id | id in s.db.blocks :: s.db.blocks[id].objectKey)])
  }

  predicate OrphanDeletable(sw: Sweep, key: Key, now: Time) {
    sw.plucked.Some? && key in sw.listed && key !in sw.registered &&
    sw.listed[key] <= now - ORPHAN_GRACE && now <= sw.startedAt + ROUND_TIMEOUT
  }

  ghost function Apply(s: State, e: Event): State {
    match e
    case Tick(dt) => s.(now := s.now + dt)
    case Ingest(bid, session, start, end, body, ids) =>
      if bid == "" || bid in s.db.ingested || !(ids !! s.db.windows.Keys) then s
      else s.(db := IngestBatch(s.db, bid, session, start, end, body, ids))
    case PutThenRollback(bid, session, body) =>
      if bid in s.db.ingested then s
      else
        var stored := MinuteObject(Payload(session, bid, body));
        s.(db := s.db.(objects := s.db.objects[MinuteKey(session, bid) := stored]))
    case DropWindows(ids) => s.(db := s.db.(windows := s.db.windows - ids))
    case RetentionRead(bid) =>
      if bid in s.db.batches && s.db.batches[bid].blockId.None?
      then s.(expiring := s.expiring[bid := s.db.batches[bid].objectKey]) else s
    case RetentionDrop(bid) =>
      if bid in s.expiring && !HasWindows(s.db, bid)
      then s.(db := s.db.(batches := s.db.batches - {bid}), doomed := s.doomed + {s.expiring[bid]}) else s
    case Begin(pid, session, bucket, begun, prev, newBids) =>
      BeginStep(s, pid, session, bucket, begun, prev, newBids)
    case ReadBlock(pid) => ReadBlockStep(s, pid)
    case Classify(pid, cutoff) => ClassifyStep(s, pid, cutoff)
    case LoadFresh(pid, readable) => LoadFreshStep(s, pid, readable)
    case Upload(pid, blockId) => UploadStep(s, pid, blockId)
    case Crash(pid) => s.(jobs := s.jobs - {pid})
    case DiscardUpload(pid) => DiscardUploadStep(s, pid)
    case Commit(pid) => CommitStep(s, pid)
    case MarkEmpty(pid) => MarkEmptyStep(s, pid)
    case ReadSource(bid) =>
      if bid in s.db.batches && s.db.batches[bid].source.Some? && s.db.batches[bid].blockId.Some?
      then s.(doomed := s.doomed + {s.db.batches[bid].source.value}) else s
    case ClearSource(bid, key) =>
      if bid in s.db.batches && s.db.batches[bid].source == Some(key) && key !in s.db.objects
      then s.(db := s.db.(batches := s.db.batches[bid := s.db.batches[bid].(source := None)])) else s
    case DeleteDoomed(key) =>
      if key in s.doomed then s.(db := s.db.(objects := s.db.objects - {key})) else s
    case DeleteBlockObject(id) =>
      if id in s.db.blocks && BlockObjectDeletable(s.db.blocks[id], s.now)
      then s.(db := s.db.(objects := s.db.objects - {s.db.blocks[id].objectKey})) else s
    case DropBlockRow(id) =>
      if id in s.db.blocks && s.db.blocks[id].status != Active && s.db.blocks[id].objectKey !in s.db.objects
      then s.(db := s.db.(blocks := s.db.blocks - {id})) else s
    case OrphanList(pid) => OrphanListStep(s, pid)
    case OrphanPluck(pid) => OrphanPluckStep(s, pid)
    case OrphanDelete(pid, key) =>
      if pid in s.sweeps && OrphanDeletable(s.sweeps[pid], key, s.now)
      then s.(db := s.db.(objects := s.db.objects - {key})) else s
  }

  ghost function Run(s: State, events: seq<Event>): State
    decreases |events|
  {
    if events == [] then s else Apply(Run(s, events[..|events| - 1]), events[|events| - 1])
  }
}

/**
 What every run of the hour-block store keeps: readers get the ingested payload back, one active
 block per bucket, versions rise by one, and nothing that is still read is ever deleted.
 */
module HourBlockSafety {
  import opened Wrappers
  import opened HourBlocks

  // ----- The invariant of the store -----

  ghost predicate Faithful(members: seq<Member>, ingested: map<Bid, Payload>) {
    forall m :: m in members ==> m.bid in ingested && m.payload == ingested[m.bid]
  }

  ghost predicate HistoryOk(st: Store) {
    && (forall b :: b in st.ingested ==> b != "" && st.ingested[b].batchId == b)
    && (forall b :: b in st.batches ==> b in st.ingested && st.batches[b].session == st.ingested[b].session)
    && st.blocks.Keys <= st.registered <= st.versions.Keys
  }

  ghost predicate ObjectsOk(objects: map<Key, Object>, ingested: map<Bid, Payload>, versions: map<BlockId, nat>) {
    forall k :: k in objects ==>
      match k
      case MinuteKey(session, b) =>
        && objects[k].MinuteObject?
        && (b in ingested && ingested[b].session == session ==> objects[k].payload == ingested[b])
      case BlockKey(_, _, id) => objects[k].BlockObject? && id in versions && Faithful(objects[k].members, ingested)
  }

  ghost predicate WindowsOk(windows: map<nat, WindowRow>, batches: map<Bid, BatchRow>) {
    forall w :: w in windows ==>
      windows[w].bid in batches && windows[w].objectKey == batches[windows[w].bid].objectKey
  }

  /** A row that is not compacted reads its own minute object, which is still there. */
  ghost predicate HotRowOk(b: Bid, row: BatchRow, objects: map<Key, Object>) {
    row.blockId.None? ==>
      row.compactedAt.None? && row.source.None? && row.objectKey == MinuteKey(row.session, b) &&
        row.objectKey in objects
  }

  ghost predicate HoldsBatch(objects: map<Key, Object>, key: Key, b: Bid) {
    key in objects && objects[key].BlockObject? && b in Ids(objects[key].members)
  }

  /** A compacted row reads an active block of its own bucket, which holds it. */
  ghost predicate CompactedRowOk(b: Bid, row: BatchRow, blocks: map<BlockId, BlockRow>, objects: map<Key, Object>) {
    row.blockId.Some? ==>
      && row.compactedAt.Some?
      && IsActive(blocks, row.blockId.value)
      && InBucket(row, blocks[row.blockId.value].session, blocks[row.blockId.value].bucket)
      && row.objectKey == blocks[row.blockId.value].objectKey
      && HoldsBatch(objects, row.objectKey, b)
      && (row.source.Some? ==> row.source.value == MinuteKey(row.session, b))
  }

  ghost predicate RowsOk(batches: map<Bid, BatchRow>, blocks: map<BlockId, BlockRow>, objects: map<Key, Object>) {
    forall b :: b in batches ==> HotRowOk(b, batches[b], objects) && CompactedRowOk(b, batches[b], blocks, objects)
  }

  ghost predicate Holds(objects: map<Key, Object>, key: Key) {
    key in objects && objects[key].BlockObject?
  }

  /** Every member of an active block whose row still exists belongs to that block. */
  ghost predicate Owns(id: BlockId, members: seq<Member>, batches: map<Bid, BatchRow>) {
    forall b :: b in Ids(members) && b in batches ==> batches[b].blockId == Some(id)
  }

  ghost predicate ActiveOk(id: BlockId, blk: BlockRow, objects: map<Key, Object>, batches: map<Bid, BatchRow>)
  {
    blk.status == Active ==>
      Holds(objects, blk.objectKey) && Owns(id, objects[blk.objectKey].members, batches)
  }

  ghost predicate SupersededOk(blk: BlockRow, objects: map<Key, Object>, versions: map<BlockId, nat>, now: Time)
  {
    blk.status == Superseded ==>
      && blk.supersededAt.Some? && blk.supersededAt.value <= now
      && blk.replacedBy.Some? && blk.replacedBy.value in versions
      && versions[blk.replacedBy.value] == blk.version + 1
      && (now <= blk.supersededAt.value + SUPERSEDED_GRACE ==> Holds(objects, blk.objectKey))
  }

  ghost predicate BlockIdOk(id: BlockId, blk: BlockRow, versions: map<BlockId, nat>) {
    && blk.objectKey == BlockKey(blk.session, blk.bucket, id)
    && id in versions && versions[id] == blk.version
    && blk.bucket % BLOCK_WINDOW == 0
  }

  ghost predicate BlockIdsOk(blocks: map<BlockId, BlockRow>, versions: map<BlockId, nat>) {
    forall id :: id in blocks ==> BlockIdOk(id, blocks[id], versions)
  }

  ghost predicate ActivesOk(blocks: map<BlockId, BlockRow>, objects: map<Key, Object>, batches: map<Bid, BatchRow>)
  {
    forall id :: id in blocks ==> ActiveOk(id, blocks[id], objects, batches)
  }

  ghost predicate SupersededsOk(blocks: map<BlockId, BlockRow>, objects: map<Key, Object>,
                                versions: map<BlockId, nat>, now: Time)
  {
    forall id :: id in blocks ==> SupersededOk(blocks[id], objects, versions, now)
  }

  ghost predicate UniqueActive(blocks: map<BlockId, BlockRow>) {
    forall i, j | IsActive(blocks, i) && IsActive(blocks, j) ::
      blocks[i].session == blocks[j].session && blocks[i].bucket == blocks[j].bucket ==> i == j
  }

  ghost predicate StoreOk(st: Store, now: Time) {
    && HistoryOk(st) && ObjectsOk(st.objects, st.ingested, st.versions)
    && WindowsOk(st.windows, st.batches) && RowsOk(st.batches, st.blocks, st.objects)
    && BlockIdsOk(st.blocks, st.versions)
    && ActivesOk(st.blocks, st.objects, st.batches)
    && SupersededsOk(st.blocks, st.objects, st.versions, now)
    && UniqueActive(st.blocks)
  }

  // ----- The invariant of what workers hold in memory -----

  /** Every row of the block a job wants to replace is accounted for in what the job read. */
  ghost predicate Accounted(st: Store, j: Job) {
    j.prev.Some? && (j.phase == Classified || j.phase.Uploaded?) && IsActive(st.blocks, j.prev.value) ==>
      forall b :: b in st.batches && st.batches[b].blockId == j.prev ==> b in Ids(j.members) || b in j.removed
  }

  ghost predicate LoadedOk(st: Store, j: Job) {
    j.phase.Loaded? && j.prev.Some? && BlockKey(j.session, j.bucket, j.prev.value) in st.objects ==>
      st.objects[BlockKey(j.session, j.bucket, j.prev.value)].BlockObject? &&
      st.objects[BlockKey(j.session, j.bucket, j.prev.value)].members == j.phase.oldMembers
  }

  ghost predicate JobPrevOk(st: Store, j: Job) {
    j.prev.Some? ==>
      && j.prev.value in st.registered && j.prev.value in st.versions && j.version == st.versions[j.prev.value] + 1
      && (j.prev.value in st.blocks ==>
            st.blocks[j.prev.value].session == j.session && st.blocks[j.prev.value].bucket == j.bucket)
  }

  ghost predicate JobMembersOk(st: Store, j: Job) {
    && Faithful(j.members, st.ingested)
    && (j.phase.Loaded? ==> Faithful(j.phase.oldMembers, st.ingested))
    && (forall b :: b in Ids(j.members) && b in st.batches ==> InBucket(st.batches[b], j.session, j.bucket))
    && (forall b :: b in j.removed ==>
          b in st.ingested && j.prev.Some? && (IsActive(st.blocks, j.prev.value) ==> !HasWindows(st, b)))
    && (forall k :: k in j.sources ==> k.MinuteKey? && k.bid in st.ingested && k.bid in Ids(j.members))
  }

  ghost predicate SourceOk(st: Store, j: Job, src: Source) {
    && src.bid in st.ingested && st.ingested[src.bid].session == j.session
    && src.key == MinuteKey(j.session, src.bid)
    && (src.bid in st.batches ==> InBucket(st.batches[src.bid], j.session, j.bucket))
  }

  ghost predicate JobReadsOk(st: Store, j: Job) {
    && j.bucket % BLOCK_WINDOW == 0
    && (j.phase == Reading || j.phase.Loaded? ==> j.members == [] && j.removed == [] && j.sources == [])
    && JobPrevOk(st, j) && JobMembersOk(st, j) && Accounted(st, j) && LoadedOk(st, j)
    && (forall src :: src in j.pending ==> SourceOk(st, j, src))
  }

  function UploadKey(j: Job): Key
    requires j.phase.Uploaded?
  {
    BlockKey(j.session, j.bucket, j.phase.blockId)
  }

  ghost predicate JobUploadOk(st: Store, now: Time, j: Job) {
    && j.begun <= now
    && (j.phase.Uploaded? ==>
        && j.phase.blockId in st.versions && st.versions[j.phase.blockId] == j.version
        && j.phase.blockId !in st.registered
        && j.begun <= j.phase.uploadedAt <= now
        && (now <= j.Deadline() ==>
              UploadKey(j) in st.objects && st.objects[UploadKey(j)] == BlockObject(j.members, j.phase.uploadedAt)))
  }

  ghost predicate JobsOk(s: State) {
    && (forall p :: p in s.jobs ==> JobReadsOk(s.db, s.jobs[p]))
    && (forall p :: p in s.jobs ==> JobUploadOk(s.db, s.now, s.jobs[p]))
    && (forall p, q | p in s.jobs && q in s.jobs && s.jobs[p].phase.Uploaded? && s.jobs[q].phase.Uploaded? ::
          s.jobs[p].phase.blockId == s.jobs[q].phase.blockId ==> p == q)
  }

  ghost predicate ListedOk(st: Store, sw: Sweep) {
    forall k :: k in sw.listed ==>
      && k.BlockKey? && k.blockId in st.versions
      && (k in st.objects ==> st.objects[k].BlockObject? && st.objects[k].modified == sw.listed[k])
  }

  /** A block the sweep did not see registered was uploaded too recently to be swept. */
  ghost predicate PluckedOk(st: Store, sw: Sweep) {
    sw.plucked.Some? ==>
      forall id ::
        id in st.blocks && st.blocks[id].objectKey !in sw.registered && st.blocks[id].objectKey in st.objects ==>
          st.objects[st.blocks[id].objectKey].BlockObject? &&
          sw.plucked.value <= st.objects[st.blocks[id].objectKey].modified + ROUND_TIMEOUT
  }

  ghost predicate SweepOk(st: Store, now: Time, sw: Sweep) {
    && sw.startedAt <= now && (sw.plucked.Some? ==> sw.startedAt <= sw.plucked.value <= now)
    && ListedOk(st, sw) && PluckedOk(st, sw)
  }

  ghost predicate DoomedOk(st: Store, doomed: set<Key>) {
    forall k :: k in doomed ==>
      k.MinuteKey? && k.bid in st.ingested && (k.bid in st.batches ==> st.batches[k.bid].blockId.Some?)
  }

  ghost predicate ExpiringOk(st: Store, expiring: map<Bid, Key>) {
    forall b :: b in expiring ==> b in st.ingested && expiring[b] == MinuteKey(st.ingested[b].session, b)
  }

  ghost predicate Inv(s: State) {
    && StoreOk(s.db, s.now) && JobsOk(s)
    && (forall p :: p in s.sweeps ==> SweepOk(s.db, s.now, s.sweeps[p]))
    && DoomedOk(s.db, s.doomed) && ExpiringOk(s.db, s.expiring)
  }

  // ----- What no action ever undoes -----

  ghost predicate RowsEvolve(a: Store, z: Store) {
    forall b :: b in z.batches ==> if b !in a.ingested then z.batches[b].blockId.None? else
      && b in a.batches && z.batches[b].session == a.batches[b].session && z.batches[b].start == a.batches[b].start
      && (z.batches[b].blockId == a.batches[b].blockId ||
          (z.batches[b].blockId.Some? && z.batches[b].blockId.value !in a.registered))
  }

  ghost predicate BlocksEvolve(a: Store, z: Store) {
    forall id :: id in z.blocks && id in a.registered ==>
      && id in a.blocks && z.blocks[id].session == a.blocks[id].session && z.blocks[id].bucket == a.blocks[id].bucket
      && z.blocks[id].objectKey == a.blocks[id].objectKey && (IsActive(z.blocks, id) ==> IsActive(a.blocks, id))
  }

  ghost predicate ObjectsEvolve(a: Store, z: Store) {
    forall k :: k in z.objects && k.BlockKey? && k.blockId in a.versions ==>
      k in a.objects && z.objects[k] == a.objects[k]
  }

  ghost predicate Evolves(a: Store, z: Store) {
    && (forall b :: b in a.ingested ==> b in z.ingested && z.ingested[b] == a.ingested[b])
    && (forall id :: id in a.versions ==> id in z.versions && z.versions[id] == a.versions[id])
    && a.registered <= z.registered
    && (forall b :: b in a.ingested && HasWindows(z, b) ==> HasWindows(a, b))
    && RowsEvolve(a, z) && BlocksEvolve(a, z) && ObjectsEvolve(a, z)
  }

  lemma JobReadsStable(a: Store, z: Store, j: Job)
    requires JobReadsOk(a, j) && Evolves(a, z)
    ensures JobReadsOk(z, j)
  {
    assert JobPrevOk(z, j);
    assert forall b :: b in Ids(j.members) ==> b in a.ingested;
    assert JobMembersOk(z, j);
  }

  lemma JobUploadStable(a: Store, z: Store, now: Time, later: Time, j: Job)
    requires JobUploadOk(a, now, j) && Evolves(a, z) && now <= later
    requires j.phase.Uploaded? ==>
      j.phase.blockId !in z.registered && (later <= j.Deadline() ==> UploadKey(j) in z.objects)
    ensures JobUploadOk(z, later, j)
  {
  }

  lemma SweepStable(a: Store, z: Store, now: Time, later: Time, sw: Sweep)
    requires SweepOk(a, now, sw) && Evolves(a, z) && now <= later && HistoryOk(a)
    requires BlockIdsOk(a.blocks, a.versions)
    requires sw.plucked.Some? ==> forall id ::
      id in z.blocks && id !in a.registered && z.blocks[id].objectKey in z.objects ==>
        z.objects[z.blocks[id].objectKey].BlockObject? &&
        sw.plucked.value <= z.objects[z.blocks[id].objectKey].modified + ROUND_TIMEOUT
    ensures SweepOk(z, later, sw)
  {
  }

  // ----- Each action keeps the invariant of the store -----

  /** The block object must still be readable: by live rows, or by readers within the grace period. */
  predicate Protected(blk: BlockRow, now: Time) {
    blk.status == Active ||
    (blk.status == Superseded && (blk.supersededAt.Some? ==> now <= blk.supersededAt.value + SUPERSEDED_GRACE))
  }

  ghost predicate StillThere(st: Store, now: Time, objects: map<Key, Object>) {
    && (forall b :: b in st.batches && st.batches[b].blockId.None? ==> st.batches[b].objectKey in objects)
    && (forall id :: id in st.blocks && Protected(st.blocks[id], now) && st.blocks[id].objectKey in st.objects ==>
          st.blocks[id].objectKey in objects && objects[st.blocks[id].objectKey] == st.objects[st.blocks[id].objectKey])
  }

  lemma ObjectsFrame(st: Store, now: Time, z: Store)
    requires StoreOk(st, now) && StillThere(st, now, z.objects)
    requires forall b :: b in st.ingested ==> b in z.ingested && z.ingested[b] == st.ingested[b]
    requires forall id :: id in st.versions ==> id in z.versions && z.versions[id] == st.versions[id]
    ensures RowsOk(st.batches, st.blocks, z.objects)
    ensures BlockIdsOk(st.blocks, z.versions)
    ensures ActivesOk(st.blocks, z.objects, st.batches)
    ensures SupersededsOk(st.blocks, z.objects, z.versions, now)
  {
    forall id | id in st.blocks
      ensures ActiveOk(id, st.blocks[id], z.objects, st.batches)
      ensures SupersededOk(st.blocks[id], z.objects, z.versions, now)
    {
      assert ActiveOk(id, st.blocks[id], st.objects, st.batches);
      assert SupersededOk(st.blocks[id], st.objects, st.versions, now);
    }
    forall b | b in st.batches
      ensures CompactedRowOk(b, st.batches[b], st.blocks, z.objects)
    {
      assert CompactedRowOk(b, st.batches[b], st.blocks, st.objects);
    }
  }

  lemma PutMinuteKeepsStore(st: Store, now: Time, key: Key, payload: Payload)
    requires StoreOk(st, now) && key.MinuteKey? && key.bid !in st.ingested
    ensures var z := st.(objects := st.objects[key := MinuteObject(payload)]); StoreOk(z, now) && Evolves(st, z)
  {
    var z := st.(objects := st.objects[key := MinuteObject(payload)]);
    assert StillThere(st, now, z.objects) by {
      assert BlockIdsOk(st.blocks, st.versions);
    }
    ObjectsFrame(st, now, z);
  }

  lemma IngestRecordKeepsStore(st: Store, now: Time, payload: Payload)
    requires StoreOk(st, now) && payload.batchId != "" && payload.batchId !in st.ingested
    ensures var b := payload.batchId;
      var z := st.(objects := st.objects[MinuteKey(payload.session, b) := MinuteObject(payload)],
                   ingested := st.ingested[b := payload]);
      && StoreOk(z, now)
      && forall id :: IsActive(z.blocks, id) ==> b !in Ids(z.objects[z.blocks[id].objectKey].members)
  {
    var b := payload.batchId;
    var z := st.(objects := st.objects[MinuteKey(payload.session, b) := MinuteObject(payload)],
                 ingested := st.ingested[b := payload]);
    assert StillThere(st, now, z.objects) by {
      assert BlockIdsOk(st.blocks, st.versions);
    }
    ObjectsFrame(st, now, z);
    forall id | IsActive(z.blocks, id) ensures b !in Ids(z.objects[z.blocks[id].objectKey].members) {
      assert ActiveOk(id, st.blocks[id], st.objects, st.batches);
    }
  }

  lemma AddRowKeepsStore(st: Store, now: Time, b: Bid, row: BatchRow, ids: set<nat>)
    requires StoreOk(st, now) && b in st.ingested && b !in st.batches && row.session == st.ingested[b].session
    requires row.blockId.None? && HotRowOk(b, row, st.objects)
    requires forall id :: IsActive(st.blocks, id) ==>
      st.blocks[id].objectKey in st.objects && st.objects[st.blocks[id].objectKey].BlockObject? &&
      b !in Ids(st.objects[st.blocks[id].objectKey].members)
    ensures var z := st.(batches := st.batches[b := row],
                         windows := st.windows + (map w | w in ids :: WindowRow(b, row.objectKey)));
      StoreOk(z, now)
  {
    var z := st.(batches := st.batches[b := row],
                 windows := st.windows + (map w | w in ids :: WindowRow(b, row.objectKey)));
    forall id | id in z.blocks ensures ActiveOk(id, z.blocks[id], z.objects, z.batches) {
      assert ActiveOk(id, st.blocks[id], st.objects, st.batches);
    }
  }

  lemma IngestKeepsStore(st: Store, now: Time, bid: Bid, session: string, start: Time, end: Time,
                         body: string, ids: set<nat>)
    requires StoreOk(st, now) && bid != "" && bid !in st.ingested && ids !! st.windows.Keys
    ensures StoreOk(IngestBatch(st, bid, session, start, end, body, ids), now)
  {
    var payload := Payload(session, bid, body);
    IngestRecordKeepsStore(st, now, payload);
    var y := st.(objects := st.objects[MinuteKey(session, bid) := MinuteObject(payload)],
                 ingested := st.ingested[bid := payload]);
    assert forall id :: IsActive(y.blocks, id) ==> ActiveOk(id, y.blocks[id], y.objects, y.batches);
    AddRowKeepsStore(y, now, bid, BatchRow(session, start, end, MinuteKey(session, bid), None, None, None), ids);
  }

  lemma IngestEvolves(st: Store, now: Time, bid: Bid, session: string, start: Time, end: Time,
                      body: string, ids: set<nat>)
    requires StoreOk(st, now) && bid !in st.ingested && ids !! st.windows.Keys
    ensures Evolves(st, IngestBatch(st, bid, session, start, end, body, ids))
  {
    var z := IngestBatch(st, bid, session, start, end, body, ids);
    assert forall b :: b in st.ingested && HasWindows(z, b) ==> HasWindows(st, b);
  }

  lemma DropWindowsKeepsStore(st: Store, now: Time, ids: set<nat>)
    requires StoreOk(st, now)
    ensures var z := st.(windows := st.windows - ids); StoreOk(z, now) && Evolves(st, z)
  {
  }

  lemma DropBatchKeepsStore(st: Store, now: Time, bid: Bid)
    requires StoreOk(st, now) && !HasWindows(st, bid)
    ensures var z := st.(batches := st.batches - {bid}); StoreOk(z, now) && Evolves(st, z)
  {
  }

  lemma ClearSourceKeepsStore(st: Store, now: Time, bid: Bid)
    requires StoreOk(st, now) && bid in st.batches
    ensures StoreOk(st.(batches := st.batches[bid := st.batches[bid].(source := None)]), now)
  {
    var z := st.(batches := st.batches[bid := st.batches[bid].(source := None)]);
    assert RowsOk(z.batches, z.blocks, z.objects) by {
      assert HotRowOk(bid, st.batches[bid], st.objects) && CompactedRowOk(bid, st.batches[bid], st.blocks, st.objects);
    }
    SameOwner(st, z.batches);
    assert WindowsOk(z.windows, z.batches);
  }

  lemma ClearSourceEvolves(st: Store, bid: Bid)
    requires HistoryOk(st) && bid in st.batches
    ensures Evolves(st, st.(batches := st.batches[bid := st.batches[bid].(source := None)]))
  {
  }

  lemma SameOwner(st: Store, batches: map<Bid, BatchRow>)
    requires ActivesOk(st.blocks, st.objects, st.batches)
    requires forall b :: b in batches ==> b in st.batches && batches[b].blockId == st.batches[b].blockId
    ensures ActivesOk(st.blocks, st.objects, batches)
  {
    forall id | id in st.blocks ensures ActiveOk(id, st.blocks[id], st.objects, batches) {
      assert ActiveOk(id, st.blocks[id], st.objects, st.batches);
    }
  }

  lemma PutBlockKeepsStore(st: Store, now: Time, j: Job, id: BlockId)
    requires StoreOk(st, now) && id !in st.versions && Faithful(j.members, st.ingested)
    ensures var z := PutBlock(st, j, id, now); StoreOk(z, now) && Evolves(st, z)
  {
    var z := PutBlock(st, j, id, now);
    assert BlockKey(j.session, j.bucket, id) !in st.objects;
    assert StillThere(st, now, z.objects);
    ObjectsFrame(st, now, z);
  }

  /** An object that no live row reads, and no block within its grace period needs, may go. */
  lemma DeleteObjectKeepsStore(st: Store, now: Time, key: Key)
    requires StoreOk(st, now) && StillThere(st, now, st.objects - {key})
    ensures var z := st.(objects := st.objects - {key}); StoreOk(z, now) && Evolves(st, z)
  {
    var z := st.(objects := st.objects - {key});
    ObjectsFrame(st, now, z);
  }

  lemma DropBlockRowKeepsStore(st: Store, now: Time, id: BlockId)
    requires StoreOk(st, now) && id in st.blocks && !IsActive(st.blocks, id)
    ensures var z := st.(blocks := st.blocks - {id}); StoreOk(z, now) && Evolves(st, z)
  {
  }

  // ----- The registering transaction -----

  ghost predicate CanRegister(st: Store, now: Time, j: Job) {
    StoreOk(st, now) && JobReadsOk(st, j) && JobUploadOk(st, now, j) && j.phase.Uploaded? && CommitAllowed(st, j, now)
  }

  lemma OnlyPrevActive(st: Store, now: Time, j: Job, x: BlockId)
    requires CanRegister(st, now, j) && IsActive(st.blocks, x)
    requires st.blocks[x].session == j.session && st.blocks[x].bucket == j.bucket
    ensures j.prev == Some(x)
  {
  }

  /** A compacted row among the members can only come from the block that is being replaced. */
  lemma OnlyFromReplaced(st: Store, now: Time, j: Job, b: Bid)
    requires CanRegister(st, now, j) && b in Ids(j.members) && b in st.batches && st.batches[b].blockId.Some?
    ensures st.batches[b].blockId == j.prev
  {
    hide ObjectsOk, WindowsOk, ActivesOk, SupersededsOk, UniqueActive, HistoryOk, JobUploadOk, CommitAllowed,
         Accounted, LoadedOk;
    var x := st.batches[b].blockId.value;
    assert CompactedRowOk(b, st.batches[b], st.blocks, st.objects);
    assert BlockIdOk(x, st.blocks[x], st.versions);
    assert InBucket(st.batches[b], j.session, j.bucket);
    OnlyPrevActive(st, now, j, x);
  }

  lemma RegisterKeepsRows(st: Store, now: Time, j: Job)
    requires CanRegister(st, now, j)
    ensures var z := Register(st, j, j.phase.blockId); RowsOk(z.batches, z.blocks, z.objects)
  {
    var z := Register(st, j, j.phase.blockId);
    forall b | b in z.batches
      ensures HotRowOk(b, z.batches[b], z.objects) && CompactedRowOk(b, z.batches[b], z.blocks, z.objects)
    {
      assert HotRowOk(b, st.batches[b], st.objects) && CompactedRowOk(b, st.batches[b], st.blocks, st.objects);
      if b in Ids(j.members) {
        assert InBucket(st.batches[b], j.session, j.bucket);
      }
    }
  }

  lemma RegisterKeepsActives(st: Store, now: Time, j: Job)
    requires CanRegister(st, now, j)
    ensures var z := Register(st, j, j.phase.blockId); ActivesOk(z.blocks, z.objects, z.batches)
  {
    var z := Register(st, j, j.phase.blockId);
    forall x | x in z.blocks && z.blocks[x].status == Active
      ensures ActiveOk(x, z.blocks[x], z.objects, z.batches)
    {
      if x != j.phase.blockId {
        assert ActiveOk(x, st.blocks[x], st.objects, st.batches);
        forall b | b in Ids(st.objects[st.blocks[x].objectKey].members) && b in z.batches
          ensures z.batches[b].blockId == Some(x)
        {
          if b in Ids(j.members) {
            OnlyFromReplaced(st, now, j, b);
          }
        }
      }
    }
  }

  lemma RegisterKeepsBlocks(st: Store, now: Time, j: Job)
    requires CanRegister(st, now, j)
    ensures var z := Register(st, j, j.phase.blockId);
      && BlockIdsOk(z.blocks, z.versions) && UniqueActive(z.blocks)
      && SupersededsOk(z.blocks, z.objects, z.versions, now)
  {
    var z := Register(st, j, j.phase.blockId);
    if j.prev.Some? {
      assert ActiveOk(j.prev.value, st.blocks[j.prev.value], st.objects, st.batches);
    }
    forall x, y | IsActive(z.blocks, x) && IsActive(z.blocks, y) && z.blocks[x].session == z.blocks[y].session &&
                  z.blocks[x].bucket == z.blocks[y].bucket
      ensures x == y
    {
      if x == j.phase.blockId && IsActive(st.blocks, y) {
        OnlyPrevActive(st, now, j, y);
      } else if y == j.phase.blockId && IsActive(st.blocks, x) {
        OnlyPrevActive(st, now, j, x);
      }
    }
  }

  lemma RegisterKeepsStore(st: Store, now: Time, j: Job)
    requires CanRegister(st, now, j)
    ensures StoreOk(Register(st, j, j.phase.blockId), now)
  {
    RegisterKeepsRows(st, now, j);
    RegisterKeepsActives(st, now, j);
    RegisterKeepsBlocks(st, now, j);
    var z := Register(st, j, j.phase.blockId);
    forall w | w in z.windows
      ensures z.windows[w].bid in z.batches && z.windows[w].objectKey == z.batches[z.windows[w].bid].objectKey
    {
      assert HasWindows(st, st.windows[w].bid);
    }
  }

  lemma RegisterEvolves(st: Store, now: Time, j: Job)
    requires CanRegister(st, now, j)
    ensures Evolves(st, Register(st, j, j.phase.blockId))
  {
    hide ObjectsOk, WindowsOk, RowsOk, ActivesOk, SupersededsOk, UniqueActive, BlockIdsOk, JobReadsOk;
    var z := Register(st, j, j.phase.blockId);
    assert forall w :: w in z.windows ==> w in st.windows && z.windows[w].bid == st.windows[w].bid;
  }

  /** The block being emptied has no rows left besides those that go with it. */
  lemma MarkDeletingKeepsRows(st: Store, now: Time, j: Job)
    requires StoreOk(st, now) && JobReadsOk(st, j) && j.phase == Classified && j.members == []
    requires j.prev.Some? && IsActive(st.blocks, j.prev.value)
    ensures var z := MarkDeleting(st, j, j.prev.value);
      RowsOk(z.batches, z.blocks, z.objects) && WindowsOk(z.windows, z.batches)
  {
    var z := MarkDeleting(st, j, j.prev.value);
    forall b | b in z.batches
      ensures HotRowOk(b, z.batches[b], z.objects) && CompactedRowOk(b, z.batches[b], z.blocks, z.objects)
    {
      assert HotRowOk(b, st.batches[b], st.objects) && CompactedRowOk(b, st.batches[b], st.blocks, st.objects);
      assert b !in Ids(j.members);
    }
    forall w | w in z.windows
      ensures z.windows[w].bid in z.batches && z.windows[w].objectKey == z.batches[z.windows[w].bid].objectKey
    {
      assert HasWindows(st, st.windows[w].bid);
    }
  }

  lemma MarkDeletingKeepsStore(st: Store, now: Time, j: Job)
    requires StoreOk(st, now) && JobReadsOk(st, j) && j.phase == Classified && j.members == []
    requires j.prev.Some? && IsActive(st.blocks, j.prev.value)
    ensures var z := MarkDeleting(st, j, j.prev.value); StoreOk(z, now) && Evolves(st, z)
  {
    var z := MarkDeleting(st, j, j.prev.value);
    MarkDeletingKeepsRows(st, now, j);
    SameOwner(st, z.batches);
    assert UniqueActive(z.blocks);
    assert StoreOk(z, now);
    assert RowsEvolve(st, z) && BlocksEvolve(st, z);
  }

  // ----- Each action keeps the whole invariant -----

  /** What workers hold stays right when the store evolves, if uploads stay and a block that appears was
      uploaded within one round of the time any sweep looked. */
  lemma MemoryStable(s: State, z: State)
    requires Inv(s) && Evolves(s.db, z.db) && s.now <= z.now && z.sweeps == s.sweeps
    requires forall p :: p in z.jobs ==> p in s.jobs && z.jobs[p] == s.jobs[p]
    requires forall p :: p in z.jobs && z.jobs[p].phase.Uploaded? ==>
      && z.jobs[p].phase.blockId !in z.db.registered
      && (z.now <= z.jobs[p].Deadline() ==> UploadKey(z.jobs[p]) in z.db.objects)
    requires forall id :: id in z.db.blocks && id !in s.db.registered && z.db.blocks[id].objectKey in z.db.objects ==>
      && z.db.objects[z.db.blocks[id].objectKey].BlockObject?
      && s.now <= z.db.objects[z.db.blocks[id].objectKey].modified + ROUND_TIMEOUT
    ensures JobsOk(z)
    ensures forall p :: p in z.sweeps ==> SweepOk(z.db, z.now, z.sweeps[p])
  {
    forall p | p in z.jobs ensures JobReadsOk(z.db, z.jobs[p]) && JobUploadOk(z.db, z.now, z.jobs[p]) {
      assert JobReadsOk(s.db, s.jobs[p]) && JobUploadOk(s.db, s.now, s.jobs[p]);
      JobReadsStable(s.db, z.db, s.jobs[p]);
      JobUploadStable(s.db, z.db, s.now, z.now, s.jobs[p]);
    }
    forall p | p in z.sweeps ensures SweepOk(z.db, z.now, z.sweeps[p]) {
      SweepStable(s.db, z.db, s.now, z.now, s.sweeps[p]);
    }
  }

  lemma UploadsPresent(s: State)
    requires Inv(s)
    ensures forall p :: p in s.jobs && s.jobs[p].phase.Uploaded? ==>
      && s.jobs[p].phase.blockId !in s.db.registered
      && (s.now <= s.jobs[p].Deadline() ==> UploadKey(s.jobs[p]) in s.db.objects)
  {
    forall p | p in s.jobs ensures JobUploadOk(s.db, s.now, s.jobs[p]) {
    }
  }

  lemma IngestKeeps(s: State, e: Event)
    requires Inv(s) && (e.Ingest? || e.PutThenRollback?)
    ensures Inv(Apply(s, e))
  {
    var z := Apply(s, e);
    UploadsPresent(s);
    if z != s {
      if e.Ingest? {
        IngestKeepsStore(s.db, s.now, e.bid, e.session, e.start, e.end, e.body, e.windowIds);
        IngestEvolves(s.db, s.now, e.bid, e.session, e.start, e.end, e.body, e.windowIds);
      } else {
        PutMinuteKeepsStore(s.db, s.now, MinuteKey(e.session, e.bid), Payload(e.session, e.bid, e.body));
      }
      MemoryStable(s, z);
    }
  }

  lemma RetentionKeeps(s: State, e: Event)
    requires Inv(s) && (e.DropWindows? || e.RetentionRead? || e.RetentionDrop?)
    ensures Inv(Apply(s, e))
  {
    var z := Apply(s, e);
    UploadsPresent(s);
    if e.DropWindows? {
      DropWindowsKeepsStore(s.db, s.now, e.ids);
      MemoryStable(s, z);
    } else if e.RetentionDrop? && z != s {
      DropBatchKeepsStore(s.db, s.now, e.bid);
      MemoryStable(s, z);
    } else if z != s {
      assert HotRowOk(e.bid, s.db.batches[e.bid], s.db.objects);
    }
  }

  lemma TickKeeps(s: State, e: Event)
    requires Inv(s) && e.Tick?
    ensures Inv(Apply(s, e))
  {
    var z := Apply(s, e);
    UploadsPresent(s);
    assert Evolves(s.db, z.db);
    MemoryStable(s, z);
  }

  /** Adding or replacing a job that has read faithfully and uploaded under an id of its own. */
  lemma JobUpdated(s: State, pid: nat, j: Job)
    requires Inv(s) && JobReadsOk(s.db, j) && JobUploadOk(s.db, s.now, j)
    requires forall p :: p in s.jobs && p != pid && j.phase.Uploaded? && s.jobs[p].phase.Uploaded? ==>
      s.jobs[p].phase.blockId != j.phase.blockId
    ensures Inv(s.(jobs := s.jobs[pid := j]))
  {
    var z := s.(jobs := s.jobs[pid := j]);
    assert JobsOk(z);
  }

  lemma BeginSourcesOk(s: State, e: Event)
    requires StoreOk(s.db, s.now) && e.Begin? && Apply(s, e) != s
    ensures var j := Apply(s, e).jobs[e.pid]; forall src :: src in j.pending ==> SourceOk(s.db, j, src)
  {
    hide ObjectsOk, WindowsOk, ActivesOk, SupersededsOk, UniqueActive, BlockIdsOk,
      Register, IngestBatch, PutBlock, Kept, Removed, MarkDeleting;
    var j := Apply(s, e).jobs[e.pid];
    forall src | src in j.pending ensures SourceOk(s.db, j, src) {
      assert HotRowOk(src.bid, s.db.batches[src.bid], s.db.objects);
    }
  }

  lemma BeginReadsOk(s: State, e: Event)
    requires Inv(s) && e.Begin? && Apply(s, e) != s
    ensures JobReadsOk(s.db, Apply(s, e).jobs[e.pid])
  {
    hide ObjectsOk, WindowsOk, ActivesOk, SupersededsOk, UniqueActive, RowsOk, SourceOk, JobsOk, SweepOk, DoomedOk,
         ExpiringOk,
      Register, IngestBatch, PutBlock, Kept, Removed, MarkDeleting, Sources;
    BeginSourcesOk(s, e);
    if e.prev.Some? {
      assert BlockIdOk(e.prev.value, s.db.blocks[e.prev.value], s.db.versions);
    }
  }

  lemma BeginKeeps(s: State, e: Event)
    requires Inv(s) && e.Begin?
    ensures Inv(Apply(s, e))
  {
    var z := Apply(s, e);
    if z != s {
      BeginReadsOk(s, e);
      JobUpdated(s, e.pid, z.jobs[e.pid]);
    }
  }

  lemma ReadBlockReadsOk(s: State, pid: nat)
    requires Inv(s) && pid in s.jobs && s.jobs[pid].phase == Reading && s.jobs[pid].prev.Some?
    requires Holds(s.db.objects, BlockKey(s.jobs[pid].session, s.jobs[pid].bucket, s.jobs[pid].prev.value))
    ensures JobReadsOk(s.db, ReadBlockStep(s, pid).jobs[pid])
  {
    hide WindowsOk, ActivesOk, SupersededsOk, UniqueActive, RowsOk, BlockIdsOk, JobUploadOk, SweepOk, DoomedOk,
         ExpiringOk;
    assert JobReadsOk(s.db, s.jobs[pid]);
  }

  lemma ReadBlockKeeps(s: State, e: Event)
    requires Inv(s) && e.ReadBlock?
    ensures Inv(Apply(s, e))
  {
    var z := Apply(s, e);
    if z != s && e.pid in z.jobs {
      ReadBlockReadsOk(s, e.pid);
      JobUpdated(s, e.pid, z.jobs[e.pid]);
    }
  }

  lemma ClassificationSplits(st: Store, id: BlockId, members: seq<Member>, cutoff: Time)
    ensures forall m :: m in members ==> m in Kept(st, id, members, cutoff) || m.bid in Removed(st, id, members, cutoff)
    ensures forall m :: m in Kept(st, id, members, cutoff) ==> m in members && !Expired(st, id, m.bid, cutoff)
    ensures forall b :: b in Removed(st, id, members, cutoff) ==> b in Ids(members) && Expired(st, id, b, cutoff)
  {
    if members != [] {
      ClassificationSplits(st, id, members[..|members| - 1], cutoff);
      assert members == members[..|members| - 1] + [members[|members| - 1]];
    }
  }

  /** What the classification of a block's members keeps and removes. */
  lemma ClassifyMembersOk(s: State, j: Job, id: BlockId, ms: seq<Member>, cutoff: Time)
    requires StoreOk(s.db, s.now) && JobReadsOk(s.db, j) && j.phase == Loaded(ms) && j.prev == Some(id)
    ensures var z := j.(phase := Classified, members := Kept(s.db, id, ms, cutoff),
      removed := Removed(s.db, id, ms, cutoff));
      JobMembersOk(s.db, z)
  {
    hide Kept, Removed, UniqueActive, SupersededsOk, ObjectsOk, Accounted;
    var kept, removed := Kept(s.db, id, ms, cutoff), Removed(s.db, id, ms, cutoff);
    ClassificationSplits(s.db, id, ms, cutoff);
    forall b | b in Ids(kept) && b in s.db.batches ensures InBucket(s.db.batches[b], j.session, j.bucket) {
      assert CompactedRowOk(b, s.db.batches[b], s.db.blocks, s.db.objects);
    }
    if IsActive(s.db.blocks, id) {
      assert ActiveOk(id, s.db.blocks[id], s.db.objects, s.db.batches);
      assert BlockIdOk(id, s.db.blocks[id], s.db.versions);
      forall b | b in removed ensures !HasWindows(s.db, b) {
      }
    }
  }

  lemma ClassifyAccounts(s: State, j: Job, id: BlockId, ms: seq<Member>, cutoff: Time)
    requires StoreOk(s.db, s.now) && JobReadsOk(s.db, j) && j.phase == Loaded(ms) && j.prev == Some(id)
    ensures var z := j.(phase := Classified, members := Kept(s.db, id, ms, cutoff),
      removed := Removed(s.db, id, ms, cutoff));
      Accounted(s.db, z)
  {
    hide Kept, Removed, UniqueActive, SupersededsOk, ObjectsOk, WindowsOk;
    var kept, removed := Kept(s.db, id, ms, cutoff), Removed(s.db, id, ms, cutoff);
    ClassificationSplits(s.db, id, ms, cutoff);
    if IsActive(s.db.blocks, id) {
      assert BlockIdOk(id, s.db.blocks[id], s.db.versions);
      forall b | b in s.db.batches && s.db.batches[b].blockId == j.prev ensures b in Ids(kept) || b in removed {
        assert CompactedRowOk(b, s.db.batches[b], s.db.blocks, s.db.objects);
        var m :| m in ms && m.bid == b;
      }
    }
  }

  lemma ClassifyReadsOk(s: State, pid: nat, cutoff: Time)
    requires Inv(s) && pid in s.jobs && s.jobs[pid].phase.Loaded? && s.jobs[pid].prev.Some?
    ensures JobReadsOk(s.db, ClassifyStep(s, pid, cutoff).jobs[pid])
  {
    hide Kept, Removed, StoreOk, SweepOk, DoomedOk, ExpiringOk, JobUploadOk, JobMembersOk, Accounted;
    var j := s.jobs[pid];
    assert JobReadsOk(s.db, j);
    ClassifyMembersOk(s, j, j.prev.value, j.phase.oldMembers, cutoff);
    ClassifyAccounts(s, j, j.prev.value, j.phase.oldMembers, cutoff);
  }

  lemma ClassifyKeeps(s: State, e: Event)
    requires Inv(s) && e.Classify?
    ensures Inv(Apply(s, e))
  {
    var z := Apply(s, e);
    if z != s {
      ClassifyReadsOk(s, e.pid, e.cutoff);
      JobUpdated(s, e.pid, z.jobs[e.pid]);
    }
  }

  lemma AddMemberReadsOk(st: Store, j: Job, m: Member, key: Key)
    requires JobReadsOk(st, j) && j.phase == Classified
    requires m.bid in st.ingested && m.payload == st.ingested[m.bid] && key.MinuteKey? && key.bid == m.bid
    requires m.bid in st.batches ==> InBucket(st.batches[m.bid], j.session, j.bucket)
    ensures JobReadsOk(st, j.(members := j.members + [m], sources := j.sources + [key]))
  {
    var k := j.(members := j.members + [m], sources := j.sources + [key]);
    assert Ids(k.members) == Ids(j.members) + {m.bid};
    assert JobMembersOk(st, k);
  }

  lemma LoadFreshReadsOk(s: State, pid: nat, readable: bool)
    requires Inv(s) && pid in s.jobs && s.jobs[pid].phase == Classified && s.jobs[pid].pending != []
    ensures JobReadsOk(s.db, LoadFreshStep(s, pid, readable).jobs[pid])
  {
    var j := s.jobs[pid];
    assert JobReadsOk(s.db, j);
    var src := j.pending[0];
    assert SourceOk(s.db, j, src);
    var rest := j.(pending := j.pending[1..]);
    assert JobReadsOk(s.db, rest) by {
      assert forall x :: x in rest.pending ==> x in j.pending;
    }
    if readable && src.key in s.db.objects {
      AddMemberReadsOk(s.db, rest, Member(src.bid, s.db.objects[src.key].payload), src.key);
    }
  }

  lemma LoadFreshKeeps(s: State, e: Event)
    requires Inv(s) && e.LoadFresh?
    ensures Inv(Apply(s, e))
  {
    var z := Apply(s, e);
    if z != s {
      LoadFreshReadsOk(s, e.pid, e.readable);
      JobUpdated(s, e.pid, z.jobs[e.pid]);
    }
  }

  lemma MembersFaithful(st: Store, j: Job)
    requires JobReadsOk(st, j)
    ensures Faithful(j.members, st.ingested)
  {
  }

  lemma UploadKeeps(s: State, e: Event)
    requires Inv(s) && e.Upload?
    ensures Inv(Apply(s, e))
  {
    hide JobReadsOk, SweepOk, Evolves, ActivesOk, RowsOk, SupersededsOk, UniqueActive, ObjectsOk, WindowsOk;
    var z := Apply(s, e);
    if z != s {
      var j := s.jobs[e.pid];
      assert JobReadsOk(s.db, j) && JobUploadOk(s.db, s.now, j);
      MembersFaithful(s.db, j);
      PutBlockKeepsStore(s.db, s.now, j, e.blockId);
      JobReadsStable(s.db, z.db, j);
      var mid := s.(db := z.db, jobs := s.jobs - {e.pid});
      UploadsPresent(s);
      MemoryStable(s, mid);
      UploadedJobOk(s, e.pid, e.blockId);
      JobUpdated(mid, e.pid, z.jobs[e.pid]);
    }
  }

  lemma UploadedJobOk(s: State, pid: nat, id: BlockId)
    requires Inv(s) && UploadStep(s, pid, id) != s
    requires JobReadsOk(UploadStep(s, pid, id).db, s.jobs[pid])
    ensures var z := UploadStep(s, pid, id);
      && JobReadsOk(z.db, z.jobs[pid]) && JobUploadOk(z.db, z.now, z.jobs[pid])
      && forall p :: p in s.jobs && s.jobs[p].phase.Uploaded? ==> s.jobs[p].phase.blockId != id
  {
    assert JobUploadOk(s.db, s.now, s.jobs[pid]);
    forall p | p in s.jobs && s.jobs[p].phase.Uploaded? ensures s.jobs[p].phase.blockId != id {
      assert JobUploadOk(s.db, s.now, s.jobs[p]);
    }
  }

  /** Deleting an object that nobody needs. */
  lemma DeleteObjectKeeps(s: State, z: State, key: Key)
    requires Inv(s) && z == s.(db := s.db.(objects := s.db.objects - {key}), jobs := z.jobs)
    requires forall p :: p in z.jobs ==> p in s.jobs && z.jobs[p] == s.jobs[p]
    requires StillThere(s.db, s.now, z.db.objects)
    requires forall p :: p in z.jobs && z.jobs[p].phase.Uploaded? && s.now <= z.jobs[p].Deadline() ==>
      UploadKey(z.jobs[p]) != key
    ensures Inv(z)
  {
    DeleteObjectKeepsStore(s.db, s.now, key);
    UploadsPresent(s);
    MemoryStable(s, z);
  }

  lemma DiscardUploadKeeps(s: State, pid: nat)
    requires Inv(s)
    ensures Inv(DiscardUploadStep(s, pid))
  {
    var z := DiscardUploadStep(s, pid);
    if z != s {
      var key := UploadKey(s.jobs[pid]);
      assert JobUploadOk(s.db, s.now, s.jobs[pid]);
      forall id | id in s.db.blocks ensures s.db.blocks[id].objectKey != key {
        assert BlockIdOk(id, s.db.blocks[id], s.db.versions);
      }
      assert forall b :: b in s.db.batches && s.db.batches[b].blockId.None? ==>
        HotRowOk(b, s.db.batches[b], s.db.objects);
      assert StillThere(s.db, s.now, z.db.objects);
      DeleteObjectKeeps(s, z, key);
    }
  }

  lemma ReadSourceKeeps(s: State, e: Event)
    requires Inv(s) && e.ReadSource?
    ensures Inv(Apply(s, e))
  {
    if Apply(s, e) != s {
      assert CompactedRowOk(e.bid, s.db.batches[e.bid], s.db.blocks, s.db.objects);
    }
  }

  lemma ClearSourceKeeps(s: State, e: Event)
    requires Inv(s) && e.ClearSource?
    ensures Inv(Apply(s, e))
  {
    hide JobReadsOk, SweepOk, Evolves, ActivesOk, SupersededsOk, UniqueActive, ObjectsOk, WindowsOk, RowsOk, BlockIdsOk,
      Register, IngestBatch, PutBlock, Kept, Removed, Sources, MarkDeleting;
    var z := Apply(s, e);
    if z != s {
      ClearSourceKeepsStore(s.db, s.now, e.bid);
      ClearSourceEvolves(s.db, e.bid);
      UploadsPresent(s);
      MemoryStable(s, z);
    }
  }

  /** Nothing that is about to be deleted as a source is read by a live row. */
  lemma DoomedUnread(s: State, key: Key)
    requires Inv(s) && key in s.doomed
    ensures key.MinuteKey? && StillThere(s.db, s.now, s.db.objects - {key})
  {
    forall id | id in s.db.blocks ensures s.db.blocks[id].objectKey != key {
      assert BlockIdOk(id, s.db.blocks[id], s.db.versions);
    }
    forall b | b in s.db.batches && s.db.batches[b].blockId.None? ensures s.db.batches[b].objectKey != key {
      assert HotRowOk(b, s.db.batches[b], s.db.objects);
    }
    assert RowsOk(s.db.batches, s.db.blocks, s.db.objects);
  }

  lemma DeleteDoomedKeeps(s: State, e: Event)
    requires Inv(s) && e.DeleteDoomed?
    ensures Inv(Apply(s, e))
  {
    if e.key in s.doomed {
      DoomedUnread(s, e.key);
      DeleteObjectKeeps(s, Apply(s, e), e.key);
    }
  }

  /** An upload in flight is never the object of a registered block. */
  lemma UploadNotRegistered(s: State, p: nat, id: BlockId)
    requires Inv(s) && p in s.jobs && s.jobs[p].phase.Uploaded? && id in s.db.blocks
    ensures s.db.blocks[id].objectKey != UploadKey(s.jobs[p])
  {
    assert JobUploadOk(s.db, s.now, s.jobs[p]);
    assert BlockIdOk(id, s.db.blocks[id], s.db.versions);
  }

  lemma DeleteBlockObjectKeeps(s: State, e: Event)
    requires Inv(s) && e.DeleteBlockObject?
    ensures Inv(Apply(s, e))
  {
    hide StillThere, JobReadsOk, SweepOk, ObjectsOk, WindowsOk, RowsOk, ActivesOk, SupersededsOk, UniqueActive,
         BlockIdsOk;
    var z := Apply(s, e);
    if e.blockId in s.db.blocks && BlockObjectDeletable(s.db.blocks[e.blockId], s.now) {
      var key := s.db.blocks[e.blockId].objectKey;
      forall p | p in s.jobs && s.jobs[p].phase.Uploaded? ensures UploadKey(s.jobs[p]) != key {
        UploadNotRegistered(s, p, e.blockId);
      }
      StillThereWithout(s.db, s.now, e.blockId);
      DeleteObjectKeeps(s, z, key);
    }
  }

  lemma StillThereWithout(st: Store, now: Time, id: BlockId)
    requires StoreOk(st, now) && id in st.blocks && BlockObjectDeletable(st.blocks[id], now)
    ensures StillThere(st, now, st.objects - {st.blocks[id].objectKey})
  {
    hide ObjectsOk, WindowsOk, ActivesOk, SupersededsOk, UniqueActive;
    assert BlockIdOk(id, st.blocks[id], st.versions);
    forall b | b in st.batches && st.batches[b].blockId.None?
      ensures st.batches[b].objectKey != st.blocks[id].objectKey
    {
      assert HotRowOk(b, st.batches[b], st.objects);
    }
  }

  lemma DropBlockRowKeeps(s: State, e: Event)
    requires Inv(s) && e.DropBlockRow?
    ensures Inv(Apply(s, e))
  {
    var z := Apply(s, e);
    if z != s {
      DropBlockRowKeepsStore(s.db, s.now, e.blockId);
      UploadsPresent(s);
      MemoryStable(s, z);
    }
  }

  /** Once the rows point to the block, their minute objects may be deleted. */
  lemma CommittedSourcesUnread(s: State, j: Job)
    requires DoomedOk(s.db, s.doomed) && HistoryOk(s.db) && JobReadsOk(s.db, j) && j.phase.Uploaded?
    ensures DoomedOk(Register(s.db, j, j.phase.blockId), s.doomed + (set k | k in j.sources))
  {
  }

  lemma CommittedMemoryOk(s: State, pid: nat)
    requires Inv(s) && pid in s.jobs && CanRegister(s.db, s.now, s.jobs[pid])
    requires Evolves(s.db, Register(s.db, s.jobs[pid], s.jobs[pid].phase.blockId))
    ensures var z := s.(db := Register(s.db, s.jobs[pid], s.jobs[pid].phase.blockId), jobs := s.jobs - {pid});
      JobsOk(z) && forall p :: p in z.sweeps ==> SweepOk(z.db, z.now, z.sweeps[p])
  {
    var z := s.(db := Register(s.db, s.jobs[pid], s.jobs[pid].phase.blockId), jobs := s.jobs - {pid});
    UploadsPresent(s);
    assert z.db.blocks.Keys <= s.db.blocks.Keys + {s.jobs[pid].phase.blockId};
    MemoryStable(s, z);
  }

  lemma CommitKeeps(s: State, e: Event)
    requires Inv(s) && e.Commit?
    ensures Inv(Apply(s, e))
  {
    if e.pid in s.jobs && s.jobs[e.pid].phase.Uploaded? {
      var j := s.jobs[e.pid];
      assert JobReadsOk(s.db, j) && JobUploadOk(s.db, s.now, j);
      if CommitAllowed(s.db, j, s.now) {
        RegisterKeepsStore(s.db, s.now, j);
        RegisterEvolves(s.db, s.now, j);
        CommittedMemoryOk(s, e.pid);
        CommittedSourcesUnread(s, j);
      } else {
        DiscardUploadKeeps(s, e.pid);
      }
    }
  }

  lemma MarkedEmptyOk(s: State, pid: nat)
    requires Inv(s) && pid in s.jobs && s.jobs[pid].phase == Classified && s.jobs[pid].members == []
    requires s.jobs[pid].prev.Some? && IsActive(s.db.blocks, s.jobs[pid].prev.value)
    ensures Inv(s.(db := MarkDeleting(s.db, s.jobs[pid], s.jobs[pid].prev.value), jobs := s.jobs - {pid}))
  {
    var z := s.(db := MarkDeleting(s.db, s.jobs[pid], s.jobs[pid].prev.value), jobs := s.jobs - {pid});
    assert JobReadsOk(s.db, s.jobs[pid]);
    MarkDeletingKeepsStore(s.db, s.now, s.jobs[pid]);
    UploadsPresent(s);
    assert z.db.blocks.Keys <= s.db.registered;
    MemoryStable(s, z);
    assert DoomedOk(z.db, z.doomed) && ExpiringOk(z.db, z.expiring);
  }

  lemma MarkEmptyKeeps(s: State, e: Event)
    requires Inv(s) && e.MarkEmpty?
    ensures Inv(Apply(s, e))
  {
    if Apply(s, e).db != s.db {
      MarkedEmptyOk(s, e.pid);
    }
  }

  lemma OrphanReadKeeps(s: State, e: Event)
    requires Inv(s) && (e.OrphanList? || e.OrphanPluck?)
    ensures Inv(Apply(s, e))
  {
    var z := Apply(s, e);
    if z != s {
      assert SweepOk(z.db, z.now, z.sweeps[e.pid]);
    }
  }

  /** The grace period is longer than two rounds, so a block that a sweep missed is too young for it. */
  lemma OrphanUnneeded(s: State, pid: nat, key: Key)
    requires Inv(s) && pid in s.sweeps && OrphanDeletable(s.sweeps[pid], key, s.now)
    ensures StillThere(s.db, s.now, s.db.objects - {key})
    ensures forall p :: p in s.jobs && s.jobs[p].phase.Uploaded? && s.now <= s.jobs[p].Deadline() ==>
      UploadKey(s.jobs[p]) != key
  {
    var sw := s.sweeps[pid];
    assert SweepOk(s.db, s.now, sw);
    forall b | b in s.db.batches && s.db.batches[b].blockId.None? ensures s.db.batches[b].objectKey != key {
      assert HotRowOk(b, s.db.batches[b], s.db.objects);
    }
    assert forall b :: b in s.db.batches && s.db.batches[b].blockId.None? ==>
      s.db.batches[b].objectKey in s.db.objects by {
      assert RowsOk(s.db.batches, s.db.blocks, s.db.objects);
    }
    forall p | p in s.jobs && s.jobs[p].phase.Uploaded? && s.now <= s.jobs[p].Deadline()
      ensures UploadKey(s.jobs[p]) != key
    {
      assert JobUploadOk(s.db, s.now, s.jobs[p]);
    }
  }

  lemma OrphanDeleteKeeps(s: State, e: Event)
    requires Inv(s) && e.OrphanDelete?
    ensures Inv(Apply(s, e))
  {
    if e.pid in s.sweeps && OrphanDeletable(s.sweeps[e.pid], e.key, s.now) {
      OrphanUnneeded(s, e.pid, e.key);
      DeleteObjectKeeps(s, Apply(s, e), e.key);
    }
  }

  lemma StepKeeps(s: State, e: Event)
    requires Inv(s)
    ensures Inv(Apply(s, e))
  {
    match e
    case Tick(_) => TickKeeps(s, e);
    case Ingest(_, _, _, _, _, _) => IngestKeeps(s, e);
    case PutThenRollback(_, _, _) => IngestKeeps(s, e);
    case DropWindows(_) => RetentionKeeps(s, e);
    case RetentionRead(_) => RetentionKeeps(s, e);
    case RetentionDrop(_) => RetentionKeeps(s, e);
    case Begin(_, _, _, _, _, _) => BeginKeeps(s, e);
    case ReadBlock(_) => ReadBlockKeeps(s, e);
    case Classify(_, _) => ClassifyKeeps(s, e);
    case LoadFresh(_, _) => LoadFreshKeeps(s, e);
    case Upload(_, _) => UploadKeeps(s, e);
    case Crash(_) =>
    case DiscardUpload(_) => DiscardUploadKeeps(s, e.pid);
    case Commit(_) => CommitKeeps(s, e);
    case MarkEmpty(_) => MarkEmptyKeeps(s, e);
    case ReadSource(_) => ReadSourceKeeps(s, e);
    case ClearSource(_, _) => ClearSourceKeeps(s, e);
    case DeleteDoomed(_) => DeleteDoomedKeeps(s, e);
    case DeleteBlockObject(_) => DeleteBlockObjectKeeps(s, e);
    case DropBlockRow(_) => DropBlockRowKeeps(s, e);
    case OrphanList(_) => OrphanReadKeeps(s, e);
    case OrphanPluck(_) => OrphanReadKeeps(s, e);
    case OrphanDelete(_, _) => OrphanDeleteKeeps(s, e);
  }

  lemma {:induction false} RunKeeps(s: State, events: seq<Event>)
    requires Inv(s)
    ensures Inv(Run(s, events))
    decreases |events|
  {
    if events != [] {
      RunKeeps(s, events[..|events| - 1]);
      StepKeeps(Run(s, events[..|events| - 1]), events[|events| - 1]);
    }
  }

  // ----- What readers get -----

  /** Loading by key and indexing by batch id finds the payload, whatever else the object holds. */
  lemma {:induction false} IndexFinds(batches: seq<Payload>, payload: Payload)
    requires payload in batches
    requires forall p :: p in batches && p.batchId == payload.batchId ==> p == payload
    ensures payload.batchId in BatchIndex(batches) && BatchIndex(batches)[payload.batchId] == payload
  {
    var last := batches[|batches| - 1];
    assert batches == batches[..|batches| - 1] + [last];
    if last.batchId != payload.batchId {
      IndexFinds(batches[..|batches| - 1], payload);
    }
  }

  lemma BlockServes(st: Store, now: Time, key: Key, b: Bid)
    requires StoreOk(st, now) && key.BlockKey? && HoldsBatch(st.objects, key, b) && b in st.ingested
    ensures ReadWindow(st.objects, WindowRow(b, key)) == Some(st.ingested[b])
  {
    var members := st.objects[key].members;
    var batches := Payloads(members);
    var m :| m in members && m.bid == b;
    var i :| 0 <= i < |members| && members[i] == m;
    assert batches[i] == m.payload;
    forall p | p in batches && p.batchId == b ensures p == st.ingested[b] {
      var k :| 0 <= k < |batches| && batches[k] == p;
      assert members[k] in members;
    }
    IndexFinds(batches, st.ingested[b]);
  }

  lemma WindowServed(st: Store, now: Time, w: nat)
    requires StoreOk(st, now) && w in st.windows
    ensures st.windows[w].bid in st.ingested
    ensures ReadWindow(st.objects, st.windows[w]) == Some(st.ingested[st.windows[w].bid])
  {
    var b := st.windows[w].bid;
    var row := st.batches[b];
    assert HotRowOk(b, row, st.objects) && CompactedRowOk(b, row, st.blocks, st.objects);
    if row.blockId.Some? {
      assert BlockIdOk(row.blockId.value, st.blocks[row.blockId.value], st.versions);
      BlockServes(st, now, row.objectKey, b);
      assert st.windows[w] == WindowRow(b, row.objectKey);
    } else {
      IndexFinds([st.ingested[b]], st.ingested[b]);
    }
  }

  /** Over every interleaving, with every crash: each surviving window row resolves through the loader to
      exactly the payload its batch was ingested with. */
  lemma ReadersGetIngestedPayload(events: seq<Event>, w: nat)
    requires w in Run(INIT, events).db.windows
    ensures var st := Run(INIT, events).db;
      st.windows[w].bid in st.ingested &&
      ReadWindow(st.objects, st.windows[w]) == Some(st.ingested[st.windows[w].bid])
  {
    RunKeeps(INIT, events);
    WindowServed(Run(INIT, events).db, Run(INIT, events).now, w);
  }

  lemma OneActiveBlockPerBucket(events: seq<Event>, i: BlockId, j: BlockId)
    requires var blocks := Run(INIT, events).db.blocks;
      IsActive(blocks, i) && IsActive(blocks, j) && blocks[i].session == blocks[j].session &&
        blocks[i].bucket == blocks[j].bucket
    ensures i == j
  {
    RunKeeps(INIT, events);
  }

  lemma VersionsRiseByOne(events: seq<Event>, id: BlockId)
    requires id in Run(INIT, events).db.blocks && Run(INIT, events).db.blocks[id].status == Superseded
    ensures var st := Run(INIT, events).db;
      && st.blocks[id].replacedBy.Some? && st.blocks[id].replacedBy.value in st.versions
      && st.versions[st.blocks[id].replacedBy.value] == st.blocks[id].version + 1
      && (st.blocks[id].replacedBy.value in st.blocks ==>
            st.blocks[st.blocks[id].replacedBy.value].version == st.blocks[id].version + 1)
  {
    RunKeeps(INIT, events);
    var st := Run(INIT, events).db;
    assert SupersededOk(st.blocks[id], st.objects, st.versions, Run(INIT, events).now);
    assert BlockIdsOk(st.blocks, st.versions);
  }

  /** A recorded source is a minute object that no row and no window reads any more. */
  lemma SourcesAreUnread(events: seq<Event>, b: Bid)
    requires b in Run(INIT, events).db.batches && Run(INIT, events).db.batches[b].source.Some?
    ensures var st := Run(INIT, events).db; var key := st.batches[b].source.value;
      && key.MinuteKey?
      && (forall c :: c in st.batches ==> st.batches[c].objectKey != key)
      && (forall w :: w in st.windows ==> st.windows[w].objectKey != key)
      && (forall id :: id in st.blocks ==> st.blocks[id].objectKey != key)
  {
    RunKeeps(INIT, events);
    var st := Run(INIT, events).db;
    var key := st.batches[b].source.value;
    assert HotRowOk(b, st.batches[b], st.objects) && CompactedRowOk(b, st.batches[b], st.blocks, st.objects);
    forall id | id in st.blocks ensures st.blocks[id].objectKey != key {
      assert BlockIdOk(id, st.blocks[id], st.versions);
    }
    forall c | c in st.batches ensures st.batches[c].objectKey != key {
      assert HotRowOk(c, st.batches[c], st.objects) && CompactedRowOk(c, st.batches[c], st.blocks, st.objects);
    }
  }

  // ----- Readers in flight -----

  /** A block row stays what it is, is superseded or emptied, or is dropped once its object is gone. */
  ghost predicate BlockFate(a: Store, z: Store, now: Time, id: BlockId) {
    id in a.blocks ==>
      if id !in z.blocks then a.blocks[id].status != Active && a.blocks[id].objectKey !in a.objects
      else if z.blocks[id].status == a.blocks[id].status then z.blocks[id] == a.blocks[id]
      else
        && a.blocks[id].status == Active && z.blocks[id].objectKey == a.blocks[id].objectKey
        && (z.blocks[id].status == Superseded ==>
              z.blocks[id].supersededAt.Some? && now <= z.blocks[id].supersededAt.value + ROUND_TIMEOUT)
        && (z.blocks[id].status == Deleting ==> forall b :: b in z.batches ==>
          b in a.batches && z.batches[b] == a.batches[b])
  }

  ghost predicate Fate(a: Store, z: Store, now: Time, id: BlockId, w: nat) {
    && BlockFate(a, z, now, id)
    && (id in a.blocks && id in a.versions && a.blocks[id].objectKey in z.objects && a.blocks[id].objectKey.BlockKey? &&
        a.blocks[id].objectKey.blockId == id ==>
          a.blocks[id].objectKey in a.objects && z.objects[a.blocks[id].objectKey] == a.objects[a.blocks[id].objectKey])
    && (w in a.windows && w in z.windows ==> z.windows[w].bid == a.windows[w].bid)
  }

  predicate Quiet(e: Event) {
    e.Tick? || e.RetentionRead? || e.Begin? || e.ReadBlock? || e.Classify? || e.LoadFresh? || e.Crash? ||
    e.ReadSource? || e.OrphanList? || e.OrphanPluck?
  }

  predicate OnlyObjects(e: Event) {
    e.PutThenRollback? || e.DiscardUpload? || e.DeleteDoomed? || e.DeleteBlockObject? || e.OrphanDelete?
  }

  lemma QuietStep(s: State, e: Event)
    requires Quiet(e)
    ensures Apply(s, e).db == s.db
  {
  }

  lemma ObjectStep(s: State, e: Event)
    requires OnlyObjects(e)
    ensures Apply(s, e).db == s.db.(objects := Apply(s, e).db.objects)
    ensures forall k: Key :: k.BlockKey? && k in Apply(s, e).db.objects ==>
      k in s.db.objects && Apply(s, e).db.objects[k] == s.db.objects[k]
  {
    ObjectStepStore(s, e);
    ObjectStepKeys(s, e);
  }

  lemma ObjectStepStore(s: State, e: Event)
    requires OnlyObjects(e)
    ensures Apply(s, e).db == s.db.(objects := Apply(s, e).db.objects)
  {
    hide Register, IngestBatch, PutBlock, Kept, Removed, MarkDeleting, Sources, CommitAllowed, ReadyToBuild,
         LoadFreshStep;
  }

  lemma ObjectStepKeys(s: State, e: Event)
    requires OnlyObjects(e)
    ensures forall k: Key :: k.BlockKey? && k in Apply(s, e).db.objects ==>
      k in s.db.objects && Apply(s, e).db.objects[k] == s.db.objects[k]
  {
    hide Register, IngestBatch, PutBlock, Kept, Removed, MarkDeleting, Sources, CommitAllowed, ReadyToBuild,
         LoadFreshStep;
  }

  lemma AddStepFate(s: State, e: Event, id: BlockId, w: nat)
    requires e.Ingest? || e.Upload?
    ensures Fate(s.db, Apply(s, e).db, s.now, id, w)
  {
  }

  lemma DropStepFate(s: State, e: Event, id: BlockId, w: nat)
    requires e.DropWindows? || e.RetentionDrop? || e.ClearSource? || e.DropBlockRow? || e.MarkEmpty?
    ensures Fate(s.db, Apply(s, e).db, s.now, id, w)
  {
    hide Kept, Removed, Sources, CommitAllowed, ReadyToBuild, Register, IngestBatch, PutBlock;
  }

  lemma RegisterFate(st: Store, j: Job, newId: BlockId, now: Time, id: BlockId, w: nat)
    requires newId !in st.blocks && now <= j.Deadline() && (j.prev.Some? ==> IsActive(st.blocks, j.prev.value))
    ensures Fate(st, Register(st, j, newId), now, id, w)
  {
  }

  lemma StepFate(s: State, e: Event, id: BlockId, w: nat)
    requires forall p :: p in s.jobs ==> JobUploadOk(s.db, s.now, s.jobs[p])
    requires s.db.blocks.Keys <= s.db.registered
    ensures Fate(s.db, Apply(s, e).db, s.now, id, w)
  {
    if Quiet(e) {
      QuietStep(s, e);
    } else if OnlyObjects(e) {
      ObjectStep(s, e);
    } else if e.Commit? {
      if e.pid in s.jobs && s.jobs[e.pid].phase.Uploaded? {
        assert JobUploadOk(s.db, s.now, s.jobs[e.pid]);
        if CommitAllowed(s.db, s.jobs[e.pid], s.now) {
          RegisterFate(s.db, s.jobs[e.pid], s.jobs[e.pid].phase.blockId, s.now, id, w);
        } else {
          ObjectStep(s, DiscardUpload(e.pid));
        }
      }
    } else if e.Ingest? || e.Upload? {
      AddStepFate(s, e, id, w);
    } else {
      DropStepFate(s, e, id, w);
    }
  }

  /** A reader took `key` from window row `w` of batch `b` at time `since`; while the row survives, the
      object is that of an active block, or of one superseded by a compaction that committed no earlier. */
  ghost predicate InHand(s: State, w: nat, b: Bid, key: Key, since: Time) {
    w in s.db.windows ==>
      && s.db.windows[w].bid == b && key.BlockKey? && key.blockId in s.db.blocks
      && s.db.blocks[key.blockId].objectKey == key && HoldsBatch(s.db.objects, key, b)
      && (s.db.blocks[key.blockId].status == Active ==>
        b in s.db.batches && s.db.batches[b].blockId == Some(key.blockId))
      && s.db.blocks[key.blockId].status != Deleting
      && (s.db.blocks[key.blockId].status == Superseded ==>
            s.db.blocks[key.blockId].supersededAt.Some? &&
              since <= s.db.blocks[key.blockId].supersededAt.value + ROUND_TIMEOUT)
  }

  lemma InHandStep(s: State, z: State, w: nat, b: Bid, key: Key, since: Time)
    requires InHand(s, w, b, key, since) && w in s.db.windows && w in z.db.windows
    requires since <= s.now && s.now <= z.now <= since + READER_GRACE
    requires StoreOk(z.db, z.now) && BlockIdsOk(s.db.blocks, s.db.versions)
    requires Fate(s.db, z.db, s.now, key.blockId, w)
    ensures InHand(z, w, b, key, since)
  {
    var id := key.blockId;
    assert BlockIdOk(id, s.db.blocks[id], s.db.versions);
    assert CompactedRowOk(b, z.db.batches[b], z.db.blocks, z.db.objects);
    assert ActiveOk(id, z.db.blocks[id], z.db.objects, z.db.batches);
    assert SupersededOk(z.db.blocks[id], z.db.objects, z.db.versions, z.now);
  }

  lemma ClockGrows(s: State, e: Event)
    ensures s.now <= Apply(s, e).now
  {
    hide Kept, Removed, Sources, CommitAllowed, ReadyToBuild, Register, IngestBatch, PutBlock, MarkDeleting;
  }

  lemma HistoryGrows(s: State, e: Event, b: Bid)
    requires b in s.db.ingested
    ensures b in Apply(s, e).db.ingested && Apply(s, e).db.ingested[b] == s.db.ingested[b]
  {
    hide Kept, Removed, Sources, CommitAllowed, ReadyToBuild, Retire, RepointBatches, RepointWindows;
  }

  ghost predicate Survives(s: State, events: seq<Event>, w: nat) {
    forall k :: 0 <= k <= |events| ==> w in Run(s, events[..k]).db.windows
  }

  lemma HeldStep(y: State, e: Event, w: nat, b: Bid, key: Key, since: Time)
    requires Inv(y) && w in y.db.windows && w in Apply(y, e).db.windows && InHand(y, w, b, key, since) &&
      b in y.db.ingested
    requires since <= y.now && Apply(y, e).now <= since + READER_GRACE
    ensures var z := Apply(y, e);
      Inv(z) && y.now <= z.now && InHand(z, w, b, key, since) && b in z.db.ingested &&
        z.db.ingested[b] == y.db.ingested[b]
  {
    hide Apply, Fate, JobReadsOk, SweepOk, DoomedOk, ExpiringOk, ObjectsOk, RowsOk, ActivesOk, SupersededsOk,
         UniqueActive;
    ClockGrows(y, e);
    HistoryGrows(y, e, b);
    StepKeeps(y, e);
    StepFate(y, e, key.blockId, w);
    InHandStep(y, Apply(y, e), w, b, key, since);
  }

  lemma {:induction false} HeldAlong(s: State, events: seq<Event>, w: nat)
    requires Inv(s) && w in s.db.windows && s.db.windows[w].objectKey.BlockKey? && Survives(s, events, w)
    requires Run(s, events).now <= s.now + READER_GRACE
    ensures var z := Run(s, events); var row := s.db.windows[w];
      && Inv(z) && s.now <= z.now && InHand(z, w, row.bid, row.objectKey, s.now)
      && row.bid in s.db.ingested && row.bid in z.db.ingested && z.db.ingested[row.bid] == s.db.ingested[row.bid]
    decreases |events|
  {
    hide Inv, InHand, Apply;
    var row := s.db.windows[w];
    if events == [] {
      assert StoreOk(s.db, s.now) by { StoreOf(s); }
      InHandAtFirst(s, w);
    } else {
      var init, e := events[..|events| - 1], events[|events| - 1];
      var y := Run(s, init);
      ClockGrows(y, e);
      assert forall k :: 0 <= k <= |init| ==> init[..k] == events[..k];
      assert Survives(s, init, w);
      HeldAlong(s, init, w);
      assert events[..|events|] == events;
      assert w in y.db.windows && w in Run(s, events).db.windows;
      HeldStep(y, e, w, row.bid, row.objectKey, s.now);
    }
  }

  lemma StoreOf(s: State)
    requires Inv(s)
    ensures StoreOk(s.db, s.now)
  {
  }

  lemma InHandAtFirst(s: State, w: nat)
    requires StoreOk(s.db, s.now) && w in s.db.windows && s.db.windows[w].objectKey.BlockKey?
    ensures InHand(s, w, s.db.windows[w].bid, s.db.windows[w].objectKey, s.now)
    ensures s.db.windows[w].bid in s.db.ingested
  {
    hide ObjectsOk, SupersededsOk, UniqueActive;
    var row := s.db.windows[w];
    assert CompactedRowOk(row.bid, s.db.batches[row.bid], s.db.blocks, s.db.objects);
    assert HotRowOk(row.bid, s.db.batches[row.bid], s.db.objects);
    var id := s.db.batches[row.bid].blockId.value;
    assert BlockIdOk(id, s.db.blocks[id], s.db.versions);
  }

  /** A reader took a block key from window row `w` after `events` and loads it after `more`, at most `d`
      later; the row is not deleted in between. */
  ghost predicate InFlight(events: seq<Event>, more: seq<Event>, w: nat, d: Time) {
    var s := Run(INIT, events);
    && w in s.db.windows && s.db.windows[w].objectKey.BlockKey? && Survives(s, more, w)
    && Run(s, more).now <= s.now + d
  }

  /** The key read after `events` still leads to the payload of the row's batch after `more`. */
  ghost predicate Served(events: seq<Event>, more: seq<Event>, w: nat) {
    var s := Run(INIT, events);
    && w in s.db.windows && s.db.windows[w].bid in s.db.ingested
    && ReadWindow(Run(s, more).db.objects, s.db.windows[w]) == Some(s.db.ingested[s.db.windows[w].bid])
  }

  /** A reader that loads its key within the grace period less one round gets the ingested payload, however
      the row was repointed in between. */
  lemma GraceCoversReadersInFlight(events: seq<Event>, more: seq<Event>, w: nat)
    requires InFlight(events, more, w, READER_GRACE)
    ensures Served(events, more, w)
  {
    hide JobsOk, SweepOk, DoomedOk, ExpiringOk, Apply;
    RunKeeps(INIT, events);
    var s := Run(INIT, events);
    var row := s.db.windows[w];
    HeldAlong(s, more, w);
    assert more[..|more|] == more;
    BlockServes(Run(s, more).db, Run(s, more).now, row.objectKey, row.bid);
    assert row == WindowRow(row.bid, row.objectKey);
  }
}

/**
 One API server working on the hour-block store: the loops and transactions of ingest and compaction
 as they run, each tied to the action it performs in HourBlocks.
 */
module BlockServer {
  import opened Wrappers
  import opened HourBlocks
  import opened HourBlockSafety

  /** The store as the only worker sees it. */
  ghost function Alone(db: Store, now: Time): State {
    State(now, db, map[], map[], map[], {})
  }

  /** The state of a worker that runs alone and holds one job, or none. */
  ghost function Holding(db: Store, now: Time, jobs: map<nat, Job>): State {
    Alone(db, now).(jobs := jobs)
  }

  lemma RunAppend(s: State, events: seq<Event>, e: Event)
    ensures Run(s, events + [e]) == Apply(Run(s, events), e)
  {
    assert (events + [e])[..|events|] == events;
  }

  ghost predicate CanBegin(db: Store, session: string, bucket: Time, prev: Option<BlockId>, newBids: seq<Bid>) {
    && bucket % BLOCK_WINDOW == 0
    && (forall b :: b in newBids ==>
          b in db.batches && db.batches[b].blockId.None? && InBucket(db.batches[b], session, bucket))
    && match prev
       case None => !HasActive(db, session, bucket)
       case Some(a) => IsActive(db.blocks, a) && db.blocks[a].session == session && db.blocks[a].bucket == bucket
  }

  lemma BeginAlone(db: Store, now: Time, session: string, bucket: Time, prev: Option<BlockId>, newBids: seq<Bid>)
    requires CanBegin(db, session, bucket, prev, newBids)
    ensures Run(Alone(db, now), [Begin(0, session, bucket, now, prev, newBids)]) == Holding(db, now, map[0 :=
      Job(session, bucket, now, prev, if prev.Some? then db.blocks[prev.value].version + 1 else 1,
          if prev.Some? then Reading else Classified, [], [], Sources(db.batches, newBids), [])])
  {
    RunAppend(Alone(db, now), [], Begin(0, session, bucket, now, prev, newBids));
  }

  lemma AppendReadBlock(db: Store, now: Time, events: seq<Event>, j: Job)
    requires Run(Alone(db, now), events) == Holding(db, now, map[0 := j]) && j.phase == Reading && j.prev.Some?
    ensures var key := BlockKey(j.session, j.bucket, j.prev.value);
      Run(Alone(db, now), events + [ReadBlock(0)]) ==
      Holding(db, now, if Holds(db.objects, key) then map[0 := j.(phase := Loaded(db.objects[key].members))] else map[])
  {
    RunAppend(Alone(db, now), events, ReadBlock(0));
    assert map[0 := j] - {0} == map[];
  }

  lemma AppendClassify(db: Store, now: Time, events: seq<Event>, j: Job, cutoff: Time)
    requires Run(Alone(db, now), events) == Holding(db, now, map[0 := j]) && j.phase.Loaded? && j.prev.Some?
    ensures Run(Alone(db, now), events + [Classify(0, cutoff)]) == Holding(db, now, map[0 := j.(phase := Classified,
      members := Kept(db, j.prev.value, j.phase.oldMembers, cutoff),
      removed := Removed(db, j.prev.value, j.phase.oldMembers, cutoff))])
  {
    RunAppend(Alone(db, now), events, Classify(0, cutoff));
  }

  lemma AppendLoadFresh(db: Store, now: Time, events: seq<Event>, j: Job)
    requires Run(Alone(db, now), events) == Holding(db, now, map[0 := j]) && j.phase == Classified && j.pending != []
    ensures Run(Alone(db, now), events + [LoadFresh(0, true)]) == Holding(db, now, map[0 := LoadNext(db.objects, j)])
  {
    RunAppend(Alone(db, now), events, LoadFresh(0, true));
  }

  function LoadNext(objects: map<Key, Object>, j: Job): Job
    requires j.pending != []
  {
    var src := j.pending[0];
    if src.key in objects && objects[src.key].MinuteObject? then
      j.(pending := j.pending[1..], members := j.members + [Member(src.bid, objects[src.key].payload)],
         sources := j.sources + [src.key])
    else j.(pending := j.pending[1..])
  }

  lemma AppendUpload(db: Store, now: Time, events: seq<Event>, j: Job, id: BlockId)
    requires Run(Alone(db, now), events) == Holding(db, now, map[0 := j]) && ReadyToBuild(j)
    requires id !in db.versions && now <= j.Deadline()
    ensures Run(Alone(db, now), events + [Upload(0, id)]) ==
      Holding(PutBlock(db, j, id, now), now, map[0 := j.(phase := Uploaded(id, now))])
  {
    RunAppend(Alone(db, now), events, Upload(0, id));
  }

  lemma AppendCommit(s: State, events: seq<Event>, db: Store, now: Time, j: Job)
    requires Run(s, events) == Holding(db, now, map[0 := j]) && j.phase.Uploaded?
    ensures Run(s, events + [Commit(0)]).db ==
      if CommitAllowed(db, j, now) then Register(db, j, j.phase.blockId)
      else db.(objects := db.objects - {UploadKey(j)})
  {
    RunAppend(s, events, Commit(0));
  }

  lemma AppendEmpty(db: Store, now: Time, events: seq<Event>, j: Job)
    requires Run(Alone(db, now), events) == Holding(db, now, map[0 := j])
    requires j.phase == Classified && j.pending == [] && j.members == [] && j.prev.Some? &&
      IsActive(db.blocks, j.prev.value)
    ensures var a := j.prev.value; var key := db.blocks[a].objectKey; var z := MarkDeleting(db, j, a);
      Run(Alone(db, now), events + [MarkEmpty(0)] + [DeleteBlockObject(a)] + [DropBlockRow(a)]).db ==
      z.(objects := z.objects - {key}, blocks := z.blocks - {a})
  {
    hide Run, Register, IngestBatch, PutBlock, Kept, Removed, Sources, CommitAllowed;
    var a, s := j.prev.value, Alone(db, now);
    RunAppend(s, events, MarkEmpty(0));
    assert Run(s, events + [MarkEmpty(0)]).db == MarkDeleting(db, j, a);
    RunAppend(s, events + [MarkEmpty(0)], DeleteBlockObject(a));
    RunAppend(s, events + [MarkEmpty(0)] + [DeleteBlockObject(a)], DropBlockRow(a));
  }

  function KeySet(keys: seq<Key>): set<Key> {
    set k | k in keys
  }

  function ClearSources(batches: map<Bid, BatchRow>, keys: set<Key>, blockKey: Key): map<Bid, BatchRow> {
    map b | b in batches ::
      if batches[b].source.Some? && batches[b].source.value in keys && batches[b].objectKey == blockKey
      then batches[b].(source := None) else batches[b]
  }

  lemma ClearOneMore(batches: map<Bid, BatchRow>, keys: set<Key>, key: Key, blockKey: Key)
    ensures ClearSources(ClearSources(batches, keys, blockKey), {key}, blockKey) ==
      ClearSources(batches, keys + {key}, blockKey)
  {
  }

  datatype Outcome = Skipped | Emptied | Lost | Built

  method IndexBatches(batches: seq<Payload>) returns (index: map<Bid, Payload>)
    ensures index == BatchIndex(batches)
  {
    index := map[];
    for i := 0 to |batches|
      invariant index == BatchIndex(batches[..i])
    {
      assert batches[..i + 1][..i] == batches[..i];
      index := index[batches[i].batchId := batches[i]];
    }
    assert batches[..|batches|] == batches;
  }

  function RowsOf(windows: seq<WindowRow>, key: Key): seq<WindowRow> {
    if windows == [] then []
    else
      var rest := RowsOf(windows[..|windows| - 1], key);
      if windows[|windows| - 1].objectKey == key then rest + [windows[|windows| - 1]] else rest
  }

  ghost predicate Grouped(windows: seq<WindowRow>, order: seq<Key>, byObject: map<Key, seq<WindowRow>>) {
    && (forall k :: k in order <==> k in byObject)
    && (forall i, j :: 0 <= i < j < |order| ==> order[i] != order[j])
    && (forall k :: k in byObject ==> byObject[k] == RowsOf(windows, k) && byObject[k] != [])
    && (forall w :: w in windows ==> w.objectKey in byObject)
  }

  lemma RowsOfLast(windows: seq<WindowRow>, w: WindowRow, k: Key)
    ensures RowsOf(windows + [w], k) == RowsOf(windows, k) + if w.objectKey == k then [w] else []
  {
    assert (windows + [w])[..|windows|] == windows;
  }

  lemma {:induction false} RowsOfNone(windows: seq<WindowRow>, k: Key)
    requires forall w :: w in windows ==> w.objectKey != k
    ensures RowsOf(windows, k) == []
  {
    if windows != [] {
      assert windows[|windows| - 1] in windows;
      RowsOfNone(windows[..|windows| - 1], k);
    }
  }

  lemma {:induction false} RowsOfHas(windows: seq<WindowRow>, w: WindowRow)
    requires w in windows
    ensures w in RowsOf(windows, w.objectKey)
  {
    var n := |windows| - 1;
    if windows[n] != w {
      assert w in windows[..n];
      RowsOfHas(windows[..n], w);
    }
  }

  lemma GroupNext(windows: seq<WindowRow>, w: WindowRow, order: seq<Key>, byObject: map<Key, seq<WindowRow>>)
    requires Grouped(windows, order, byObject)
    ensures var k := w.objectKey;
      if k in byObject then Grouped(windows + [w], order, byObject[k := byObject[k] + [w]])
      else Grouped(windows + [w], order + [k], byObject[k := [w]])
  {
    hide RowsOf;
    var k := w.objectKey;
    forall x
      ensures RowsOf(windows + [w], x) == RowsOf(windows, x) + if k == x then [w] else []
    {
      RowsOfLast(windows, w, x);
    }
    if k !in byObject {
      RowsOfNone(windows, k);
    }
  }

  /** Readers load each object once: every window row falls into exactly the group of its own object. */
  method GroupWindowsByObject(windows: seq<WindowRow>) returns (order: seq<Key>, byObject: map<Key, seq<WindowRow>>)
    ensures Grouped(windows, order, byObject)
    ensures forall w :: w in windows ==> w.objectKey in byObject && w in byObject[w.objectKey]
  {
    hide Grouped;
    order, byObject := [], map[];
    assert Grouped([], [], map[]) by { NothingGrouped(); }
    for i := 0 to |windows|
      invariant Grouped(windows[..i], order, byObject)
    {
      var key := windows[i].objectKey;
      assert windows[..i + 1] == windows[..i] + [windows[i]];
      GroupNext(windows[..i], windows[i], order, byObject);
      if key !in byObject {
        order := order + [key];
        byObject := byObject[key := [windows[i]]];
      } else {
        byObject := byObject[key := byObject[key] + [windows[i]]];
      }
    }
    assert windows[..|windows|] == windows;
    GroupsHold(windows, order, byObject);
  }

  lemma NothingGrouped()
    ensures Grouped([], [], map[])
  {
  }

  lemma GroupsHold(windows: seq<WindowRow>, order: seq<Key>, byObject: map<Key, seq<WindowRow>>)
    requires Grouped(windows, order, byObject)
    ensures forall w :: w in windows ==> w.objectKey in byObject && w in byObject[w.objectKey]
  {
    hide RowsOf;
    forall w | w in windows ensures w.objectKey in byObject && w in byObject[w.objectKey] { RowsOfHas(windows, w); }
  }

  // What a round is to do with a bucket

  /** The active block of the bucket that the round starts from, if there is one. */
  ghost predicate StartsFrom(db: Store, session: string, bucket: Time, prev: Option<BlockId>) {
    match prev
    case None => !HasActive(db, session, bucket)
    case Some(a) => IsActive(db.blocks, a) && db.blocks[a].session == session && db.blocks[a].bucket == bucket
  }

  ghost predicate OldReadable(db: Store, session: string, bucket: Time, prev: Option<BlockId>) {
    prev.Some? ==> Holds(db.objects, BlockKey(session, bucket, prev.value))
  }

  ghost predicate WasMember(db: Store, session: string, bucket: Time, prev: Option<BlockId>, m: Member) {
    prev.Some? && Holds(db.objects, BlockKey(session, bucket, prev.value)) &&
    m in db.objects[BlockKey(session, bucket, prev.value)].members
  }

  /** A member of the old block stays while its row belongs to the block and is young enough or has windows. */
  ghost predicate Stays(db: Store, session: string, bucket: Time, prev: Option<BlockId>, cutoff: Time, m: Member) {
    && WasMember(db, session, bucket, prev, m) && m.bid in db.batches && db.batches[m.bid].blockId == prev
    && (db.batches[m.bid].end >= cutoff || exists w :: w in db.windows && db.windows[w].bid == m.bid)
  }

  ghost predicate Leaves(db: Store, session: string, bucket: Time, prev: Option<BlockId>, cutoff: Time, m: Member) {
    WasMember(db, session, bucket, prev, m) && !Stays(db, session, bucket, prev, cutoff, m)
  }

  /** An uncompacted batch of the bucket that has not expired. */
  ghost predicate Fresh(db: Store, session: string, bucket: Time, cutoff: Time, b: Bid) {
    && b in db.batches && db.batches[b].blockId.None? && db.batches[b].session == session
    && bucket <= db.batches[b].start < bucket + BLOCK_WINDOW && db.batches[b].end >= cutoff
  }

  /** Such a batch joins the block, with the payload of its minute object, if that can be read. */
  ghost predicate Joins(db: Store, session: string, bucket: Time, cutoff: Time, m: Member) {
    && Fresh(db, session, bucket, cutoff, m.bid) && db.batches[m.bid].objectKey in db.objects
    && db.objects[db.batches[m.bid].objectKey] == MinuteObject(m.payload)
  }

  /** What a round that starts from `prev` makes of the bucket. */
  ghost function Expected(db: Store, session: string, bucket: Time, prev: Option<BlockId>, cutoff: Time): Outcome {
    if !OldReadable(db, session, bucket, prev) then Skipped
    else if exists m :: Joins(db, session, bucket, cutoff, m) then Built
    else if prev.None? then Skipped
    else if !exists m :: Stays(db, session, bucket, prev, cutoff, m) then Emptied
    else if exists m :: Leaves(db, session, bucket, prev, cutoff, m) then Built
    else Skipped
  }

  /** The members of the block: those that stay and those that join. */
  ghost predicate HasMembers(db: Store, session: string, bucket: Time, prev: Option<BlockId>, cutoff: Time,
                             members: seq<Member>)
  {
    forall m :: m in members <==>
      Stays(db, session, bucket, prev, cutoff, m) || Joins(db, session, bucket, cutoff, m)
  }

  ghost predicate HasRemoved(db: Store, session: string, bucket: Time, prev: Option<BlockId>, cutoff: Time,
                             removed: seq<Bid>)
  {
    forall b :: b in removed <==> exists m :: Leaves(db, session, bucket, prev, cutoff, m) && m.bid == b
  }

  ghost predicate HasSources(db: Store, session: string, bucket: Time, cutoff: Time, sources: seq<Key>) {
    forall k :: k in sources <==>
      exists m :: Joins(db, session, bucket, cutoff, m) && db.batches[m.bid].objectKey == k
  }

  /** The batch leaves the block; its row is deleted. */
  ghost predicate RowLeaves(db: Store, session: string, bucket: Time, prev: Option<BlockId>, cutoff: Time, b: Bid) {
    exists m :: Leaves(db, session, bucket, prev, cutoff, m) && m.bid == b
  }

  ghost predicate RowInBlock(db: Store, session: string, bucket: Time, prev: Option<BlockId>, cutoff: Time, b: Bid) {
    exists m :: (Stays(db, session, bucket, prev, cutoff, m) || Joins(db, session, bucket, cutoff, m)) && m.bid == b
  }

  /** What the row of a batch in the new block becomes: it is read from the block, and a batch compacted for the
      first time records where its minute object is. */
  ghost predicate InNewBlock(a: BatchRow, z: BatchRow, id: BlockId, key: Key, now: Time) {
    && z.session == a.session && z.start == a.start && z.end == a.end && z.blockId == Some(id) && z.objectKey == key
    && if a.source.None? && a.compactedAt.None? then z.source == Some(a.objectKey) && z.compactedAt == Some(now)
       else z.source == a.source && z.compactedAt == a.compactedAt
  }

  ghost predicate RowsAfter(a: Store, z: Store, session: string, bucket: Time, prev: Option<BlockId>, cutoff: Time,
                            now: Time, id: BlockId)
  {
    && z.batches.Keys <= a.batches.Keys
    && forall b :: b in a.batches ==>
         if RowLeaves(a, session, bucket, prev, cutoff, b) then b !in z.batches
         else if RowInBlock(a, session, bucket, prev, cutoff, b) then
           b in z.batches && InNewBlock(a.batches[b], z.batches[b], id, BlockKey(session, bucket, id), now)
         else b in z.batches && z.batches[b] == a.batches[b]
  }

  ghost predicate WindowsAfter(a: Store, z: Store, session: string, bucket: Time, prev: Option<BlockId>, cutoff: Time,
                               id: BlockId)
  {
    && z.windows.Keys == a.windows.Keys
    && forall w :: w in a.windows ==>
         if RowInBlock(a, session, bucket, prev, cutoff, a.windows[w].bid)
         then z.windows[w] == WindowRow(a.windows[w].bid, BlockKey(session, bucket, id))
         else z.windows[w] == a.windows[w]
  }

  ghost predicate BlocksAfter(a: Store, z: Store, session: string, bucket: Time, prev: Option<BlockId>, now: Time,
                              id: BlockId)
  {
    && z.blocks.Keys == a.blocks.Keys + {id}
    && z.blocks[id].session == session && z.blocks[id].bucket == bucket
    && z.blocks[id].objectKey == BlockKey(session, bucket, id) && z.blocks[id].status == Active
    && z.blocks[id].version == (if prev.Some? && prev.value in a.blocks then a.blocks[prev.value].version + 1 else 1)
    && forall x :: x in a.blocks && x != id ==>
         if prev == Some(x)
         then z.blocks[x] == a.blocks[x].(status := Superseded, supersededAt := Some(now), replacedBy := Some(id))
         else z.blocks[x] == a.blocks[x]
  }

  /** The bucket after a block was built: one new active block that holds the members that stay and join, the old
      one superseded, the rows and windows of the members pointing to it, and what leaves is gone. */
  ghost predicate BlockBuilt(a: Store, z: Store, session: string, bucket: Time, prev: Option<BlockId>, cutoff: Time,
                             now: Time, id: BlockId)
  {
    var key := BlockKey(session, bucket, id);
    && BlocksAfter(a, z, session, bucket, prev, now, id)
    && Holds(z.objects, key) && HasMembers(a, session, bucket, prev, cutoff, z.objects[key].members)
    && z.objects - {key} == a.objects - {key}
    && RowsAfter(a, z, session, bucket, prev, cutoff, now, id)
    && WindowsAfter(a, z, session, bucket, prev, cutoff, id)
  }

  /** The bucket after its block was emptied: the block, its object and the rows of its members are gone. */
  ghost predicate BlockEmptied(a: Store, z: Store, session: string, bucket: Time, prev: Option<BlockId>, cutoff: Time)
  {
    && prev.Some? && prev.value in a.blocks && z.blocks == a.blocks - {prev.value}
    && z.objects == a.objects - {a.blocks[prev.value].objectKey} && z.windows == a.windows
    && z.batches.Keys <= a.batches.Keys
    && forall b :: b in a.batches ==>
         if RowLeaves(a, session, bucket, prev, cutoff, b) then b !in z.batches
         else b in z.batches && z.batches[b] == a.batches[b]
  }

  /** The job decides by its lists exactly what is expected of the bucket. */
  lemma Foreseen(db: Store, session: string, bucket: Time, cutoff: Time, j: Job)
    requires OldReadable(db, session, bucket, j.prev) && HasMembers(db, session, bucket, j.prev, cutoff, j.members)
    requires HasRemoved(db, session, bucket, j.prev, cutoff, j.removed)
    requires HasSources(db, session, bucket, cutoff, j.sources)
    ensures Expected(db, session, bucket, j.prev, cutoff) ==
      if j.members == [] then (if j.prev.None? then Skipped else Emptied)
      else if j.sources == [] && j.removed == [] then Skipped else Built
  {
    hide Stays, Joins, Leaves;
    assert j.sources != [] ==> j.sources[0] in j.sources;
    assert j.members != [] ==> j.members[0] in j.members;
    assert j.removed != [] ==> j.removed[0] in j.removed;
    if m :| Joins(db, session, bucket, cutoff, m) {
      JoinsHasRow(db, session, bucket, cutoff, m);
      assert m in j.members && db.batches[m.bid].objectKey in j.sources;
    } else {
      if m :| Stays(db, session, bucket, j.prev, cutoff, m) {
        assert m in j.members;
        assert j.prev.Some? by { StaysHasBlock(db, session, bucket, j.prev, cutoff, m); }
      }
      if m :| Leaves(db, session, bucket, j.prev, cutoff, m) {
        assert m.bid in j.removed;
      }
    }
  }

  lemma JoinsHasRow(db: Store, session: string, bucket: Time, cutoff: Time, m: Member)
    requires Joins(db, session, bucket, cutoff, m)
    ensures m.bid in db.batches
  {
  }

  lemma StaysHasBlock(db: Store, session: string, bucket: Time, prev: Option<BlockId>, cutoff: Time, m: Member)
    requires Stays(db, session, bucket, prev, cutoff, m)
    ensures prev.Some?
  {
  }

  lemma MemberRows(db: Store, session: string, bucket: Time, cutoff: Time, j: Job)
    requires HasMembers(db, session, bucket, j.prev, cutoff, j.members)
    requires HasRemoved(db, session, bucket, j.prev, cutoff, j.removed)
    ensures forall b :: b in Ids(j.members) <==> RowInBlock(db, session, bucket, j.prev, cutoff, b)
    ensures forall b :: b in j.removed <==> RowLeaves(db, session, bucket, j.prev, cutoff, b)
  {
    hide Stays, Joins, Leaves;
  }

  lemma EmptiedRows(db: Store, session: string, bucket: Time, cutoff: Time, j: Job)
    requires StartsFrom(db, session, bucket, j.prev) && j.prev.Some?
    requires HasRemoved(db, session, bucket, j.prev, cutoff, j.removed)
    ensures var a := j.prev.value; var z := MarkDeleting(db, j, a);
      BlockEmptied(db, z.(objects := z.objects - {db.blocks[a].objectKey}, blocks := z.blocks - {a}), session, bucket,
                   j.prev, cutoff)
  {
    hide Leaves;
    var a := j.prev.value;
    var z := MarkDeleting(db, j, a);
    assert z.blocks - {a} == db.blocks - {a};
    assert forall b :: b in j.removed <==> RowLeaves(db, session, bucket, j.prev, cutoff, b);
  }

  lemma RegisteredIsBuilt(db: Store, session: string, bucket: Time, cutoff: Time, now: Time, id: BlockId, j: Job)
    requires StartsFrom(db, session, bucket, j.prev) && j.session == session && j.bucket == bucket && j.begun == now
    requires j.version == if j.prev.Some? then db.blocks[j.prev.value].version + 1 else 1
    requires HasMembers(db, session, bucket, j.prev, cutoff, j.members)
    requires HasRemoved(db, session, bucket, j.prev, cutoff, j.removed)
    ensures var st := PutBlock(db, j, id, now); var uploaded := j.(phase := Uploaded(id, now));
      && CommitAllowed(st, uploaded, now)
      && BlockBuilt(db, Register(st, uploaded, id), session, bucket, j.prev, cutoff, now, id)
  {
    hide Stays, Joins, Leaves, HasMembers, HasRemoved, RowsAfter, WindowsAfter, RepointBatches, RepointWindows;
    var st := PutBlock(db, j, id, now);
    var z := Register(st, j.(phase := Uploaded(id, now)), id);
    assert BlocksAfter(db, z, session, bucket, j.prev, now, id);
    MembersRepointed(db, z, session, bucket, cutoff, now, id, j);
    assert z.objects == db.objects[BlockKey(session, bucket, id) := BlockObject(j.members, now)];
    assert z.objects - {BlockKey(session, bucket, id)} == db.objects - {BlockKey(session, bucket, id)};
  }

  lemma MembersRepointed(db: Store, z: Store, session: string, bucket: Time, cutoff: Time, now: Time, id: BlockId,
                         j: Job)
    requires HasMembers(db, session, bucket, j.prev, cutoff, j.members)
    requires HasRemoved(db, session, bucket, j.prev, cutoff, j.removed)
    requires var key := BlockKey(session, bucket, id);
      && z.batches == RepointBatches(db.batches, Ids(j.members), id, key, now) - (set b | b in j.removed)
      && z.windows == RepointWindows(db.windows, Ids(j.members), key)
    ensures RowsAfter(db, z, session, bucket, j.prev, cutoff, now, id)
    ensures WindowsAfter(db, z, session, bucket, j.prev, cutoff, id)
  {
    hide Stays, Joins, Leaves, HasMembers, HasRemoved, RowInBlock, RowLeaves, Ids;
    MemberRows(db, session, bucket, cutoff, j);
  }

  /** In a store that satisfies the invariant every batch that joins keeps its row. */
  lemma JoinersKeepRows(a: Store, z: Store, session: string, bucket: Time, prev: Option<BlockId>, cutoff: Time,
                        now: Time, id: BlockId, m: Member)
    requires StoreOk(a, now) && StartsFrom(a, session, bucket, prev) && Joins(a, session, bucket, cutoff, m)
    requires RowsAfter(a, z, session, bucket, prev, cutoff, now, id)
    ensures m.bid in z.batches && z.batches[m.bid].blockId == Some(id)
    ensures z.batches[m.bid].source == Some(a.batches[m.bid].objectKey)
  {
    hide StoreOk, Stays;
    assert RowInBlock(a, session, bucket, prev, cutoff, m.bid);
    if x :| Leaves(a, session, bucket, prev, cutoff, x) && x.bid == m.bid {
      FreshIsNew(a, now, session, bucket, prev, cutoff, m.bid, x);
    }
    HotIsUnrecorded(a, now, m.bid);
  }

  lemma HotIsUnrecorded(db: Store, now: Time, b: Bid)
    requires StoreOk(db, now) && b in db.batches && db.batches[b].blockId.None?
    ensures db.batches[b].source.None? && db.batches[b].compactedAt.None?
  {
    hide ObjectsOk, ActivesOk, SupersededsOk, UniqueActive, WindowsOk, HistoryOk;
    assert HotRowOk(b, db.batches[b], db.objects);
  }

  lemma ClassificationMeans(db: Store, session: string, bucket: Time, a: BlockId, cutoff: Time)
    requires Holds(db.objects, BlockKey(session, bucket, a))
    ensures var ms := db.objects[BlockKey(session, bucket, a)].members;
      && (forall m :: m in Kept(db, a, ms, cutoff) <==> Stays(db, session, bucket, Some(a), cutoff, m))
      && HasRemoved(db, session, bucket, Some(a), cutoff, Removed(db, a, ms, cutoff))
  {
    hide Kept, Removed;
    var ms := db.objects[BlockKey(session, bucket, a)].members;
    ClassificationSplits(db, a, ms, cutoff);
    var removed := Removed(db, a, ms, cutoff);
    forall m | m in ms ensures Expired(db, a, m.bid, cutoff) <==> !Stays(db, session, bucket, Some(a), cutoff, m) {
    }
    forall m | m in ms ensures m in Kept(db, a, ms, cutoff) <==> !Expired(db, a, m.bid, cutoff) {
      if !Expired(db, a, m.bid, cutoff) {
        assert m in Kept(db, a, ms, cutoff) || m.bid in removed;
      }
    }
    forall b | b in removed ensures exists m :: Leaves(db, session, bucket, Some(a), cutoff, m) && m.bid == b {
      var m :| m in ms && m.bid == b;
      assert Leaves(db, session, bucket, Some(a), cutoff, m);
    }
    forall m | Leaves(db, session, bucket, Some(a), cutoff, m) ensures m.bid in removed {
    }
  }

  /** In a store that satisfies the invariant no fresh batch is in the old block. */
  lemma FreshIsNew(db: Store, now: Time, session: string, bucket: Time, prev: Option<BlockId>, cutoff: Time, b: Bid,
                   m: Member)
    requires StoreOk(db, now) && StartsFrom(db, session, bucket, prev)
    requires Fresh(db, session, bucket, cutoff, b) && WasMember(db, session, bucket, prev, m)
    ensures m.bid != b
  {
    hide ObjectsOk, RowsOk, SupersededsOk, UniqueActive, WindowsOk, HistoryOk;
    var a := prev.value;
    assert ActiveOk(a, db.blocks[a], db.objects, db.batches);
    assert BlockIdOk(a, db.blocks[a], db.versions);
  }

  class Server {
    var batches: map<Bid, BatchRow>
    var windows: map<nat, WindowRow>
    var blocks: map<BlockId, BlockRow>
    var objects: map<Key, Object>
    ghost var ingested: map<Bid, Payload>
    ghost var versions: map<BlockId, nat>
    ghost var registered: set<BlockId>

    ghost function Db(): Store
      reads this
    {
      Store(batches, windows, blocks, objects, ingested, versions, registered)
    }

    constructor ()
      ensures Db() == INIT.db
    {
      batches, windows, blocks, objects := map[], map[], map[], map[];
      ingested, versions, registered := map[], map[], {};
    }

    /** A batch id that is already stored is acknowledged without storing anything. An id whose row is gone is
        stored again; otherwise this is the ingest step. */
    method Ingest(bid: Bid, session: string, start: Time, end: Time, body: string, windowIds: set<nat>, ghost now: Time)
      returns (duplicate: bool)
      requires bid != "" && windowIds !! windows.Keys
      modifies this
      ensures duplicate == (bid in old(batches))
      ensures Db() == if duplicate then old(Db()) else IngestBatch(old(Db()), bid, session, start, end, body, windowIds)
      ensures (bid in old(batches) <==> bid in old(ingested)) ==>
        Db() == Apply(Alone(old(Db()), now), HourBlocks.Ingest(bid, session, start, end, body, windowIds)).db
    {
      duplicate := bid in batches;
      if duplicate {
        return;
      }
      var key := MinuteKey(session, bid);
      batches := batches[bid := BatchRow(session, start, end, key, None, None, None)];
      objects := objects[key := MinuteObject(Payload(session, bid, body))];
      windows := windows + (map w | w in windowIds :: WindowRow(bid, key));
      ingested := ingested[bid := Payload(session, bid, body)];
    }

    method ReadRow(row: WindowRow) returns (payload: Option<Payload>)
      ensures payload == ReadWindow(objects, row)
    {
      match LoadBatches(objects, row.objectKey)
      case None => payload := None;
      case Some(loaded) =>
        var index := IndexBatches(loaded);
        if row.bid != "" {
          payload := if row.bid in index then Some(index[row.bid]) else None;
        } else {
          payload := if |loaded| == 1 then Some(loaded[0]) else None;
        }
    }

    method ClassifyMembers(blockId: BlockId, members: seq<Member>, cutoff: Time)
      returns (kept: seq<Member>, removed: seq<Bid>)
      ensures kept == Kept(Db(), blockId, members, cutoff)
      ensures removed == Removed(Db(), blockId, members, cutoff)
    {
      kept, removed := [], [];
      for i := 0 to |members|
        invariant kept == Kept(Db(), blockId, members[..i], cutoff)
        invariant removed == Removed(Db(), blockId, members[..i], cutoff)
      {
        assert members[..i + 1][..i] == members[..i];
        var bid := members[i].bid;
        var exists_ := bid in batches && batches[bid].blockId == Some(blockId);
        var windowCount := |set w | w in windows && windows[w].bid == bid|;
        CountIsZero(bid);
        if !exists_ || (batches[bid].end < cutoff && windowCount == 0) {
          removed := removed + [bid];
        } else {
          kept := kept + [members[i]];
        }
      }
      assert members[..|members|] == members;
    }

    lemma CountIsZero(bid: Bid)
      ensures |set w | w in windows && windows[w].bid == bid| == 0 <==> !HasWindows(Db(), bid)
    {
      var s := set w | w in windows && windows[w].bid == bid;
      if HasWindows(Db(), bid) {
        var w :| w in windows && windows[w].bid == bid;
        assert w in s;
      } else {
        assert s == {};
      }
    }

    /** Points the rows of the members to their block. */
    method RepointRows(members: seq<Member>, id: BlockId, key: Key, at: Time)
      modifies this`batches
      ensures batches == RepointBatches(old(batches), Ids(members), id, key, at)
    {
      for i := 0 to |members|
        invariant batches == RepointBatches(old(batches), Ids(members[..i]), id, key, at)
      {
        assert Ids(members[..i + 1]) == Ids(members[..i]) + {members[i].bid};
        var bid := members[i].bid;
        if bid in batches {
          batches := batches[bid := Repointed(batches[bid], id, key, at)];
        }
      }
      assert members[..|members|] == members;
    }

    /** The registering transaction: all of it, or, when the old block changed or another is active, none of it. */
    method RegisterBlock(j: Job, id: BlockId, now: Time) returns (committed: bool)
      requires now <= j.Deadline()
      modifies this
      ensures committed == old(CommitAllowed(Db(), j, now))
      ensures Db() == if committed then Register(old(Db()), j, id) else old(Db())
    {
      if j.prev.Some? && (j.prev.value !in blocks || blocks[j.prev.value].status != Active) {
        return false;
      }
      if j.prev.None? && exists x | x in blocks ::
           blocks[x].status == Active && blocks[x].session == j.session && blocks[x].bucket == j.bucket {
        assert exists x :: IsActive(blocks, x) && blocks[x].session == j.session && blocks[x].bucket == j.bucket;
        return false;
      }
      var key := BlockKey(j.session, j.bucket, id);
      blocks := Retire(blocks, j.prev, id, j.begun);
      blocks := blocks[id := BlockRow(j.session, j.bucket, key, j.version, Active, None, None)];
      RepointRows(j.members, id, key, j.begun);
      windows := map w | w in windows :: if windows[w].bid in Ids(j.members) then windows[w].(objectKey := key)
        else windows[w];
      batches := batches - (set b | b in j.removed);
      registered := registered + {id};
      return true;
    }

    method GatherFresh(session: string, bucket: Time, cutoff: Time) returns (newBids: seq<Bid>)
      ensures forall b :: b in newBids <==> Fresh(Db(), session, bucket, cutoff, b)
    {
      var rest := set b | b in batches && batches[b].blockId.None? && InBucket(batches[b], session, bucket) &&
                          batches[b].end >= cutoff;
      newBids := [];
      while rest != {}
        invariant forall b :: Fresh(Db(), session, bucket, cutoff, b) <==> b in newBids || b in rest
      {
        var b :| b in rest;
        newBids := newBids + [b];
        rest := rest - {b};
      }
    }

    /** Reads the old block and decides which members stay; fails if its object cannot be read. */
    method LoadOldBlock(now: Time, ghost before: seq<Event>, j0: Job, cutoff: Time)
      returns (ok: bool, j: Job, ghost events: seq<Event>)
      requires Run(Alone(Db(), now), before) == Holding(Db(), now, map[0 := j0]) && j0.phase == Reading && j0.prev.Some?
      ensures Run(Alone(Db(), now), events) == Holding(Db(), now, if ok then map[0 := j] else map[])
      ensures j == j0.(phase := Classified, members := j.members, removed := j.removed)
      ensures ok <==> OldReadable(Db(), j0.session, j0.bucket, j0.prev)
      ensures ok ==> forall m :: m in j.members <==> Stays(Db(), j0.session, j0.bucket, j0.prev, cutoff, m)
      ensures ok ==> HasRemoved(Db(), j0.session, j0.bucket, j0.prev, cutoff, j.removed)
    {
      hide Stays, Leaves, Kept, Removed, HasRemoved;
      var key := BlockKey(j0.session, j0.bucket, j0.prev.value);
      ok := key in objects && objects[key].BlockObject?;
      events := before + [ReadBlock(0)];
      AppendReadBlock(Db(), now, before, j0);
      j := j0.(phase := Classified);
      if ok {
        var kept, removed := ClassifyMembers(j0.prev.value, objects[key].members, cutoff);
        j := j.(members := kept, removed := removed);
        AppendClassify(Db(), now, events, j0.(phase := Loaded(objects[key].members)), cutoff);
        events := events + [Classify(0, cutoff)];
        ClassificationMeans(Db(), j0.session, j0.bucket, j0.prev.value, cutoff);
      }
    }

    ghost predicate Loads(src: Source, m: Member)
      reads this
    {
      src.bid == m.bid && src.key in objects && objects[src.key] == MinuteObject(m.payload)
    }

    /** Every source that can be read becomes a member; the others are left for a later round. */
    method LoadFreshSources(now: Time, ghost before: seq<Event>, j0: Job)
      returns (j: Job, ghost events: seq<Event>)
      requires Run(Alone(Db(), now), before) == Holding(Db(), now, map[0 := j0]) && j0.phase == Classified
      requires j0.sources == []
      ensures Run(Alone(Db(), now), events) == Holding(Db(), now, map[0 := j])
      ensures j == j0.(pending := [], members := j.members, sources := j.sources)
      ensures forall m :: m in j.members <==> m in j0.members || exists src :: src in j0.pending && Loads(src, m)
      ensures forall k :: k in j.sources <==> exists src, m :: src in j0.pending && Loads(src, m) && src.key == k
    {
      hide Run;
      j, events := j0, before;
      ghost var done := [];
      while j.pending != []
        invariant Run(Alone(Db(), now), events) == Holding(Db(), now, map[0 := j])
        invariant j == j0.(pending := j.pending, members := j.members, sources := j.sources)
        invariant done + j.pending == j0.pending
        invariant forall m :: m in j.members <==> m in j0.members || exists src :: src in done && Loads(src, m)
        invariant forall k :: k in j.sources <==> exists src, m :: src in done && Loads(src, m) && src.key == k
        decreases |j.pending|
      {
        AppendLoadFresh(Db(), now, events, j);
        events := events + [LoadFresh(0, true)];
        ghost var was, src := j, j.pending[0];
        j := LoadNext(objects, j);
        done := done + [src];
        LoadedOne(done[..|done| - 1], src, was, j, j0);
      }
      assert done == j0.pending;
    }

    lemma LoadedOne(done: seq<Source>, src: Source, was: Job, j: Job, j0: Job)
      requires was.pending != [] && was.pending[0] == src && j == LoadNext(objects, was)
      requires forall m :: m in was.members <==> m in j0.members || exists x :: x in done && Loads(x, m)
      requires forall k :: k in was.sources <==> exists x, m :: x in done && Loads(x, m) && x.key == k
      ensures forall m :: m in j.members <==> m in j0.members || exists x :: x in done + [src] && Loads(x, m)
      ensures forall k :: k in j.sources <==> exists x, m :: x in done + [src] && Loads(x, m) && x.key == k
    {
      var more := done + [src];
      assert src in more && forall x :: x in more <==> x in done || x == src;
      if src.key in objects && objects[src.key].MinuteObject? {
        var m := Member(src.bid, objects[src.key].payload);
        assert Loads(src, m) && forall x :: Loads(src, x) ==> x == m;
      } else {
        assert forall x :: !Loads(src, x);
      }
    }

    lemma PendingJoin(session: string, bucket: Time, cutoff: Time, newBids: seq<Bid>, pending: seq<Source>)
      requires forall b :: b in newBids <==> Fresh(Db(), session, bucket, cutoff, b)
      requires pending == Sources(batches, newBids)
      ensures forall m :: Joins(Db(), session, bucket, cutoff, m) <==> exists src :: src in pending && Loads(src, m)
      ensures forall src, m :: src in pending && Loads(src, m) ==>
        Joins(Db(), session, bucket, cutoff, m) && batches[m.bid].objectKey == src.key
    {
      forall src | src in pending
        ensures Fresh(Db(), session, bucket, cutoff, src.bid) && src.key == batches[src.bid].objectKey
      {
        var i :| 0 <= i < |pending| && pending[i] == src;
        assert newBids[i] in newBids;
      }
      forall m | Joins(Db(), session, bucket, cutoff, m) ensures exists src :: src in pending && Loads(src, m) {
        var i :| 0 <= i < |newBids| && newBids[i] == m.bid;
        assert pending[i] in pending && Loads(pending[i], m);
      }
    }

    /** Reads the bucket: what is in the old block, what leaves it, what joins it. */
    method PlanCompaction(session: string, bucket: Time, cutoff: Time, now: Time)
      returns (ok: bool, j: Job, ghost events: seq<Event>)
      requires bucket % BLOCK_WINDOW == 0
      ensures Run(Alone(Db(), now), events) == Holding(Db(), now, if ok then map[0 := j] else map[])
      ensures j.phase == Classified && j.begun == now && j.session == session && j.bucket == bucket
      ensures StartsFrom(Db(), session, bucket, j.prev) && (ok <==> OldReadable(Db(), session, bucket, j.prev))
      ensures j.version == if j.prev.Some? then blocks[j.prev.value].version + 1 else 1
      ensures ok ==> j.pending == [] && HasMembers(Db(), session, bucket, j.prev, cutoff, j.members)
      ensures ok ==> HasRemoved(Db(), session, bucket, j.prev, cutoff, j.removed)
      ensures ok ==> HasSources(Db(), session, bucket, cutoff, j.sources)
    {
      hide Run, Stays, Leaves, Joins, Fresh;
      var prev: Option<BlockId> := None;
      if exists x | x in blocks :: blocks[x].status == Active && blocks[x].session == session &&
          blocks[x].bucket == bucket {
        var a :| a in blocks && blocks[a].status == Active && blocks[a].session == session &&
          blocks[a].bucket == bucket;
        prev := Some(a);
      }
      var newBids := GatherFresh(session, bucket, cutoff);
      var pending := Sources(batches, newBids);
      var version := if prev.Some? then blocks[prev.value].version + 1 else 1;
      j := Job(session, bucket, now, prev, version, if prev.Some? then Reading else Classified, [], [], pending, []);
      events := [Begin(0, session, bucket, now, prev, newBids)];
      CanBeginFresh(session, bucket, prev, cutoff, newBids);
      BeginAlone(Db(), now, session, bucket, prev, newBids);
      ok := true;
      if prev.Some? {
        ok, j, events := LoadOldBlock(now, events, j, cutoff);
      } else {
        NobodyLeaves(session, bucket, cutoff);
      }
      if ok {
        j, events := LoadFreshSources(now, events, j);
        PendingJoin(session, bucket, cutoff, newBids, pending);
      }
    }

    lemma CanBeginFresh(session: string, bucket: Time, prev: Option<BlockId>, cutoff: Time, newBids: seq<Bid>)
      requires bucket % BLOCK_WINDOW == 0 && StartsFrom(Db(), session, bucket, prev)
      requires forall b :: b in newBids <==> Fresh(Db(), session, bucket, cutoff, b)
      ensures CanBegin(Db(), session, bucket, prev, newBids)
    {
    }

    lemma NobodyLeaves(session: string, bucket: Time, cutoff: Time)
      ensures HasRemoved(Db(), session, bucket, None, cutoff, [])
      ensures forall m :: !Stays(Db(), session, bucket, None, cutoff, m)
    {
    }

    /** Deletes a block without members: rows and status in one transaction, then its object, then its row. */
    method DeleteEmptyBlock(j: Job)
      requires j.prev.Some? && IsActive(blocks, j.prev.value)
      modifies this
      ensures var z := MarkDeleting(old(Db()), j, j.prev.value);
        Db() == z.(objects := z.objects - {old(blocks)[j.prev.value].objectKey}, blocks := z.blocks - {j.prev.value})
    {
      var a := j.prev.value;
      var key := blocks[a].objectKey;
      batches := batches - (set b | b in j.removed);
      blocks := blocks[a := blocks[a].(status := Deleting)];
      objects := objects - {key};
      blocks := blocks - {a};
    }

    /** Uploads the block and registers it; a block that cannot be registered is deleted again. */
    method BuildBlock(ghost s: State, ghost before: seq<Event>, j: Job, now: Time, id: BlockId)
      returns (built: bool, ghost events: seq<Event>)
      requires s == Alone(Db(), now) && Run(s, before) == Holding(Db(), now, map[0 := j]) && ReadyToBuild(j)
      requires id !in versions && now <= j.Deadline()
      modifies this
      ensures Db() == Run(s, events).db
      ensures var st := PutBlock(old(Db()), j, id, now); var uploaded := j.(phase := Uploaded(id, now));
        && built == CommitAllowed(st, uploaded, now)
        && Db() == if built then Register(st, uploaded, id)
                   else st.(objects := st.objects - {BlockKey(j.session, j.bucket, id)})
    {
      var key := BlockKey(j.session, j.bucket, id);
      AppendUpload(s.db, now, before, j, id);
      objects := objects[key := BlockObject(j.members, now)];
      versions := versions[id := j.version];
      var uploaded := j.(phase := Uploaded(id, now));
      assert Db() == PutBlock(s.db, j, id, now);
      AppendCommit(s, before + [Upload(0, id)], Db(), now, uploaded);
      events := before + [Upload(0, id)] + [Commit(0)];
      built := RegisterBlock(uploaded, id, now);
      if !built {
        objects := objects - {key};
      }
    }

    /** One bucket of one round, run to its commit. Its effect is that of a run of the step system, so every
        theorem about runs covers it. What becomes of the bucket is fixed by what is stored: alone, a round always
        builds when a batch can join or a member leaves, empties a block nobody stays in, and never loses a race. */
    method CompactBucket(session: string, bucket: Time, cutoff: Time, now: Time, id: BlockId)
      returns (outcome: Outcome, sources: seq<Key>, ghost prev: Option<BlockId>, ghost events: seq<Event>)
      requires bucket % BLOCK_WINDOW == 0 && id !in versions
      modifies this
      ensures Db() == Run(Alone(old(Db()), now), events).db
      ensures StartsFrom(old(Db()), session, bucket, prev)
      ensures outcome == Expected(old(Db()), session, bucket, prev, cutoff)
      ensures outcome == Skipped ==> Db() == old(Db()) && sources == []
      ensures outcome == Emptied ==> BlockEmptied(old(Db()), Db(), session, bucket, prev, cutoff) && sources == []
      ensures outcome == Built ==> BlockBuilt(old(Db()), Db(), session, bucket, prev, cutoff, now, id)
      ensures outcome == Built ==> HasSources(old(Db()), session, bucket, cutoff, sources)
    {
      hide Run, Register, PutBlock, BlockBuilt, HasMembers, HasRemoved, HasSources, Stays, Joins, Leaves;
      var ok, j;
      ok, j, events := PlanCompaction(session, bucket, cutoff, now);
      prev := j.prev;
      outcome, sources := Skipped, [];
      ghost var was := Db();
      if !ok {
        return;
      }
      Foreseen(was, session, bucket, cutoff, j);
      if j.members == [] && j.prev.None? {
        return;
      }
      if j.members == [] {
        outcome := Emptied;
        AppendEmpty(Db(), now, events, j);
        DeleteEmptyBlock(j);
        EmptiedRows(was, session, bucket, cutoff, j);
        events := events + [MarkEmpty(0)] + [DeleteBlockObject(j.prev.value)] + [DropBlockRow(j.prev.value)];
        return;
      }
      if j.sources == [] && j.removed == [] {
        return;
      }
      var built;
      built, events := BuildBlock(Alone(Db(), now), events, j, now, id);
      outcome := if built then Built else Lost;
      sources := if built then j.sources else [];
      RegisteredIsBuilt(was, session, bucket, cutoff, now, id, j);
    }

    /** After the commit: each source object goes, then the row that still records it is cleared. */
    method DeleteSources(sources: seq<Key>, blockKey: Key)
      modifies this`objects, this`batches
      ensures objects == old(objects) - KeySet(sources)
      ensures batches == ClearSources(old(batches), KeySet(sources), blockKey)
    {
      for i := 0 to |sources|
        invariant objects == old(objects) - KeySet(sources[..i])
        invariant batches == ClearSources(old(batches), KeySet(sources[..i]), blockKey)
      {
        objects := objects - {sources[i]};
        batches := ClearSources(batches, {sources[i]}, blockKey);
        ClearOneMore(old(batches), KeySet(sources[..i]), sources[i], blockKey);
        assert KeySet(sources[..i + 1]) == KeySet(sources[..i]) + {sources[i]};
      }
      assert sources[..|sources|] == sources;
    }
  }
}

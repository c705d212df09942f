/**
 What the deleting workers of the hour-block store achieve: everything that is no longer needed is removed by the
 worker meant for it, and a worker that runs removes nothing else.
 */
module HourBlockSweeps {
  import opened Wrappers
  import opened HourBlocks
  import opened HourBlockSafety

  lemma RunTwo(s: State, e1: Event, e2: Event)
    ensures Run(s, [e1, e2]) == Apply(Apply(s, e1), e2)
  {
    hide Apply;
    assert [e1][..0] == [] && [e1, e2][..1] == [e1];
    assert Run(s, [e1]) == Apply(s, e1);
  }

  lemma RunThree(s: State, e1: Event, e2: Event, e3: Event)
    ensures Run(s, [e1, e2, e3]) == Apply(Apply(Apply(s, e1), e2), e3)
  {
    hide Apply;
    RunTwo(s, e1, e2);
    assert [e1, e2, e3][..2] == [e1, e2];
  }

  /** Retention removes an uncompacted batch exactly when it has no windows left: its row, then its object. */
  lemma RetentionRemoves(s: State, b: Bid)
    requires b in s.db.batches && s.db.batches[b].blockId.None?
    ensures var key := s.db.batches[b].objectKey;
      var z := Run(s, [RetentionRead(b), RetentionDrop(b), DeleteDoomed(key)]);
      if exists w :: w in s.db.windows && s.db.windows[w].bid == b
      then z.db.batches == s.db.batches && (key !in s.doomed ==> z.db == s.db)
      else z.db == s.db.(batches := s.db.batches - {b}, objects := s.db.objects - {key})
  {
    hide Kept, Removed, Sources, Register, PutBlock, IngestBatch, CommitAllowed, MarkDeleting;
    RunThree(s, RetentionRead(b), RetentionDrop(b), DeleteDoomed(s.db.batches[b].objectKey));
    assert HasWindows(s.db, b) <==> exists w :: w in s.db.windows && s.db.windows[w].bid == b;
  }

  lemma WindowsDropped(s: State, ids: set<nat>)
    ensures Apply(s, DropWindows(ids)) == s.(db := s.db.(windows := s.db.windows - ids))
  {
  }

  /** Once retention has deleted its last windows, an uncompacted batch is removed with them. */
  lemma ExpiredBatchRemoved(s: State, b: Bid)
    requires b in s.db.batches && s.db.batches[b].blockId.None?
    ensures var ids := set w | w in s.db.windows && s.db.windows[w].bid == b; var key := s.db.batches[b].objectKey;
      Run(Apply(s, DropWindows(ids)), [RetentionRead(b), RetentionDrop(b), DeleteDoomed(key)]).db ==
      s.db.(windows := s.db.windows - ids, batches := s.db.batches - {b}, objects := s.db.objects - {key})
  {
    hide Run, Apply;
    var ids := set w | w in s.db.windows && s.db.windows[w].bid == b;
    WindowsDropped(s, ids);
    RetentionRemoves(Apply(s, DropWindows(ids)), b);
  }

  /** The retry of source deletions removes the minute object a compacted batch still records, then its record. */
  lemma SourceRemoved(s: State, b: Bid, key: Key)
    requires b in s.db.batches && s.db.batches[b].blockId.Some? && s.db.batches[b].source == Some(key)
    ensures Run(s, [ReadSource(b), DeleteDoomed(key), ClearSource(b, key)]).db ==
      s.db.(objects := s.db.objects - {key}, batches := s.db.batches[b := s.db.batches[b].(source := None)])
  {
    hide Kept, Removed, Sources, Register, PutBlock, IngestBatch, CommitAllowed, MarkDeleting;
    RunThree(s, ReadSource(b), DeleteDoomed(key), ClearSource(b, key));
  }

  /** The sweep removes a superseded block, object and row, exactly after the grace period, an emptied one at once,
      and leaves an active one alone. */
  lemma BlockSwept(s: State, id: BlockId)
    requires id in s.db.blocks && (s.db.blocks[id].status == Superseded ==> s.db.blocks[id].supersededAt.Some?)
    requires s.db.blocks[id].objectKey in s.db.objects
    ensures var row := s.db.blocks[id]; var z := Run(s, [DeleteBlockObject(id), DropBlockRow(id)]);
      if row.status == Deleting || (row.status == Superseded && s.now - row.supersededAt.value > 900)
      then z.db == s.db.(objects := s.db.objects - {row.objectKey}, blocks := s.db.blocks - {id})
      else z.db == s.db
  {
    hide Kept, Removed, Sources, Register, PutBlock, IngestBatch, CommitAllowed, MarkDeleting;
    RunTwo(s, DeleteBlockObject(id), DropBlockRow(id));
  }

  lemma OrphansLooked(s: State, pid: nat)
    requires pid !in s.sweeps
    ensures var z := Apply(Apply(s, OrphanList(pid)), OrphanPluck(pid));
      && z.db == s.db && z.now == s.now && pid in z.sweeps && z.sweeps[pid].plucked.Some?
      && z.sweeps[pid].startedAt == s.now
      && (forall k :: k in z.sweeps[pid].listed <==>
            k.BlockKey? && k in s.db.objects && s.db.objects[k].BlockObject?)
      && (forall k :: k in z.sweeps[pid].listed ==> z.sweeps[pid].listed[k] == s.db.objects[k].modified)
      && (forall k :: k in z.sweeps[pid].registered <==>
            exists id :: id in s.db.blocks && s.db.blocks[id].objectKey == k)
  {
    hide Kept, Removed, Sources, Register, PutBlock, IngestBatch, CommitAllowed, MarkDeleting;
  }

  /** An orphan sweep removes a block object exactly when it is at least as old as the grace period and no row
      registers it. */
  lemma OrphanSwept(s: State, pid: nat, key: Key)
    requires pid !in s.sweeps && key.BlockKey? && key in s.db.objects && s.db.objects[key].BlockObject?
    ensures var z := Run(s, [OrphanList(pid), OrphanPluck(pid), OrphanDelete(pid, key)]);
      if s.now - s.db.objects[key].modified >= 900 &&
         !exists id :: id in s.db.blocks && s.db.blocks[id].objectKey == key
      then z.db == s.db.(objects := s.db.objects - {key})
      else z.db == s.db
  {
    hide OrphanListStep, OrphanPluckStep, Register, PutBlock, IngestBatch, MarkDeleting;
    OrphansLooked(s, pid);
    RunThree(s, OrphanList(pid), OrphanPluck(pid), OrphanDelete(pid, key));
  }
}

/**
 How long a reader may hold the key of a block. Blocks are superseded with the time their compaction began,
 so the promised grace period is shorter than its constant by one round, and no shorter.
 */
module ReaderGrace {
  import opened Wrappers
  import opened HourBlocks
  import opened HourBlockSafety

  /** Every reader of every run that loads its key at most `d` after it took it is served. */
  ghost predicate AllServed(d: Time) {
    forall events, more, w :: InFlight(events, more, w, d) ==> Served(events, more, w)
  }

  // ----- A run with a reader that is one second too late -----

  const OLD_KEY := BlockKey("s", 0, "old")
  const NEW_KEY := BlockKey("s", 0, "new")
  const FIRST := Payload("s", "b1", "x")
  const SECOND := Payload("s", "b2", "y")

  /** One batch is compacted into the block `old`. */
  const BUILD_OLD := [
    Ingest("b1", "s", 0, 60, "x", {0}), Begin(0, "s", 0, 0, None, ["b1"]), LoadFresh(0, true), Upload(0, "old"),
      Commit(0)]

  /** A second batch arrives and the next compaction uploads `new`, but spends its whole round before it commits. */
  const PREPARE_NEW := [
    Ingest("b2", "s", 0, 60, "y", {1}), Begin(1, "s", 0, 0, Some("old"), ["b2"]), ReadBlock(1), Classify(1, 0),
    LoadFresh(1, true), Upload(1, "new"), Tick(ROUND_TIMEOUT)]

  const SUPERSEDE := [Commit(1), Tick(READER_GRACE + 1), DeleteBlockObject("old")]

  const FRESH_JOB := Job("s", 0, 0, None, 1, Classified, [], [], [Source("b1", MinuteKey("s", "b1"))], [])
  const OLD_JOB := Job("s", 0, 0, None, 1, Classified, [Member("b1", FIRST)], [], [], [MinuteKey("s", "b1")])
  const OLD_UPLOADED := OLD_JOB.(phase := Uploaded("old", 0))
  const READ_JOB := Job("s", 0, 0, Some("old"), 2, Reading, [], [], [Source("b2", MinuteKey("s", "b2"))], [])
  const LOADED_JOB := READ_JOB.(phase := Loaded([Member("b1", FIRST)]))
  const KEPT_JOB := READ_JOB.(phase := Classified, members := [Member("b1", FIRST)])
  const NEW_JOB := Job("s", 0, 0, Some("old"), 2, Classified, [Member("b1", FIRST), Member("b2", SECOND)], [], [],
                       [MinuteKey("s", "b2")])
  const NEW_UPLOADED := NEW_JOB.(phase := Uploaded("new", 0))

  lemma RunNone(s: State)
    ensures Run(s, []) == s
  {
  }

  lemma Then(s: State, events: seq<Event>, e: Event, more: seq<Event>)
    requires more == events + [e]
    ensures Run(s, more) == Apply(Run(s, events), e)
  {
    assert more[..|more| - 1] == events;
  }

  /** The only rows are those of `b1`, in block `old`. */
  ghost predicate OldStored(st: Store) {
    && st.windows == map[0 := WindowRow("b1", OLD_KEY)]
    && st.ingested == map["b1" := FIRST] && st.versions == map["old" := 1]
    && st.blocks == map["old" := BlockRow("s", 0, OLD_KEY, 1, Active, None, None)]
    && "b1" in st.batches && st.batches["b1"].blockId == Some("old") && st.batches["b1"].end == 60
    && OLD_KEY in st.objects && st.objects[OLD_KEY] == BlockObject([Member("b1", FIRST)], 0)
  }

  ghost predicate OldBuilt(s: State) {
    s.now == 0 && s.jobs == map[] && OldStored(s.db)
  }

  function WithFirst(st: Store): Store {
    IngestBatch(st, "b1", "s", 0, 60, "x", {0})
  }

  function WithSecond(st: Store): Store {
    IngestBatch(st, "b2", "s", 0, 60, "y", {1})
  }

  lemma IngestFirst(s: State)
    requires s == INIT
    ensures Apply(s, BUILD_OLD[0]) == s.(db := WithFirst(s.db))
    ensures var st := WithFirst(s.db);
      && MinuteKey("s", "b1") in st.objects && st.objects[MinuteKey("s", "b1")] == MinuteObject(FIRST)
      && st.versions == map[] && st.blocks == map[] && st.windows == map[0 := WindowRow("b1", MinuteKey("s", "b1"))]
  {
  }

  lemma BeginOld(s: State)
    requires s == INIT.(db := WithFirst(INIT.db))
    ensures Apply(s, BUILD_OLD[1]) == s.(jobs := map[0 := FRESH_JOB])
  {
    assert Sources(s.db.batches, ["b1"]) == [Source("b1", MinuteKey("s", "b1"))];
  }

  lemma LoadFirst(s: State)
    requires MinuteKey("s", "b1") in s.db.objects && s.db.objects[MinuteKey("s", "b1")] == MinuteObject(FIRST)
    requires s.jobs == map[0 := FRESH_JOB]
    ensures Apply(s, BUILD_OLD[2]) == s.(jobs := map[0 := OLD_JOB])
  {
    assert FRESH_JOB.members + [Member("b1", FIRST)] == OLD_JOB.members;
    assert FRESH_JOB.sources + [MinuteKey("s", "b1")] == OLD_JOB.sources;
    assert FRESH_JOB.pending[1..] == OLD_JOB.pending;
  }

  lemma UploadOld(s: State)
    requires s.jobs == map[0 := OLD_JOB] && s.now == 0 && "old" !in s.db.versions
    ensures Apply(s, BUILD_OLD[3]) == s.(db := PutBlock(s.db, OLD_JOB, "old", 0), jobs := map[0 := OLD_UPLOADED])
    ensures var st := PutBlock(s.db, OLD_JOB, "old", 0); st.blocks == s.db.blocks && st.windows == s.db.windows
  {
    hide Register, Kept, Removed, IngestBatch, Sources, BeginStep, CommitStep, LoadFreshStep;
  }

  lemma CommitOld(s: State)
    requires s.jobs == map[0 := OLD_UPLOADED] && s.now == 0 && s.db.blocks == map[]
    ensures var z := Apply(s, BUILD_OLD[4]);
      && z.db == Register(s.db, OLD_UPLOADED, "old") && z.jobs == map[] && z.now == 0
      && z.db.windows.Keys == s.db.windows.Keys && MinuteKey("s", "b1") in z.doomed
  {
    assert map[0 := OLD_UPLOADED] - {0} == map[];
    assert MinuteKey("s", "b1") in OLD_UPLOADED.sources;
  }

  lemma RegisteredOld(st: Store)
    requires st == PutBlock(WithFirst(INIT.db), OLD_JOB, "old", 0)
    ensures OldStored(Register(st, OLD_UPLOADED, "old"))
  {
    assert Member("b1", FIRST) in OLD_UPLOADED.members;
  }

  /** The block is uploaded and its job about to commit; the window is still read from the minute object. */
  lemma UploadedOld(s: State)
    requires s == INIT
    ensures var z := Run(s, BUILD_OLD[..4]);
      && z.now == 0 && z.jobs == map[0 := OLD_UPLOADED] && z.db.blocks == map[]
      && z.db == PutBlock(WithFirst(s.db), OLD_JOB, "old", 0)
      && z.db.windows == map[0 := WindowRow("b1", MinuteKey("s", "b1"))]
  {
    hide Apply, Run, WithFirst, PutBlock;
    var e := BUILD_OLD;
    var s1 := s.(db := WithFirst(s.db));
    IngestFirst(s);
    RunNone(s);
    Then(s, [], e[0], e[..1]);
    BeginOld(s1);
    Then(s, e[..1], e[1], e[..2]);
    LoadFirst(s1.(jobs := map[0 := FRESH_JOB]));
    Then(s, e[..2], e[2], e[..3]);
    UploadOld(s1.(jobs := map[0 := OLD_JOB]));
    Then(s, e[..3], e[3], e[..4]);
  }

  lemma BuildOld(s: State)
    requires s == INIT
    ensures OldBuilt(Run(s, BUILD_OLD))
  {
    hide Apply, Run, WithFirst, Register, PutBlock, OldStored;
    UploadedOld(s);
    CommitOld(Run(s, BUILD_OLD[..4]));
    Then(s, BUILD_OLD[..4], BUILD_OLD[4], BUILD_OLD);
    RegisteredOld(PutBlock(WithFirst(s.db), OLD_JOB, "old", 0));
  }

  lemma IngestSecond(s: State)
    requires OldBuilt(s)
    ensures Apply(s, PREPARE_NEW[0]) == s.(db := WithSecond(s.db))
  {
  }

  lemma BeginNew(s: State, st: Store)
    requires s.db == WithSecond(st) && OldStored(st) && s.now == 0 && s.jobs == map[]
    ensures Apply(s, PREPARE_NEW[1]) == s.(jobs := map[1 := READ_JOB])
  {
    hide Kept, Removed, UploadStep, CommitStep, LoadFreshStep, MarkEmptyStep, OrphanListStep, OrphanPluckStep;
    assert Sources(s.db.batches, ["b2"]) == [Source("b2", MinuteKey("s", "b2"))];
  }

  lemma ReadOld(s: State)
    requires s.jobs == map[1 := READ_JOB]
    requires OLD_KEY in s.db.objects && s.db.objects[OLD_KEY] == BlockObject([Member("b1", FIRST)], 0)
    ensures Apply(s, PREPARE_NEW[2]) == s.(jobs := map[1 := LOADED_JOB])
  {
  }

  lemma KeepsFirst(st: Store)
    requires "b1" in st.batches && st.batches["b1"].blockId == Some("old") && st.batches["b1"].end == 60
    ensures Kept(st, "old", [Member("b1", FIRST)], 0) == [Member("b1", FIRST)]
    ensures Removed(st, "old", [Member("b1", FIRST)], 0) == []
  {
    var one := [Member("b1", FIRST)];
    assert one[..|one| - 1] == [];
    assert !Expired(st, "old", one[0].bid, 0);
    assert Kept(st, "old", [], 0) + one == one;
  }

  lemma ClassifyOld(s: State)
    requires s.jobs == map[1 := LOADED_JOB]
    requires "b1" in s.db.batches && s.db.batches["b1"].blockId == Some("old") && s.db.batches["b1"].end == 60
    ensures Apply(s, PREPARE_NEW[3]) == s.(jobs := map[1 := KEPT_JOB])
  {
    hide Kept, Removed;
    KeepsFirst(s.db);
  }

  lemma LoadSecond(s: State)
    requires MinuteKey("s", "b2") in s.db.objects && s.db.objects[MinuteKey("s", "b2")] == MinuteObject(SECOND)
    requires s.jobs == map[1 := KEPT_JOB]
    ensures Apply(s, PREPARE_NEW[4]) == s.(jobs := map[1 := NEW_JOB])
  {
    assert KEPT_JOB.members + [Member("b2", SECOND)] == NEW_JOB.members;
    assert KEPT_JOB.sources + [MinuteKey("s", "b2")] == NEW_JOB.sources;
    assert KEPT_JOB.pending[1..] == NEW_JOB.pending;
  }

  lemma UploadNew(s: State)
    requires s.jobs == map[1 := NEW_JOB] && s.now == 0 && "new" !in s.db.versions
    ensures Apply(s, PREPARE_NEW[5]) == s.(db := PutBlock(s.db, NEW_JOB, "new", 0), jobs := map[1 := NEW_UPLOADED])
  {
    hide PutBlock, Register, Kept, Removed, IngestBatch, Sources, BeginStep, CommitStep, LoadFreshStep;
  }

  lemma PrepareNew(s: State)
    requires OldBuilt(s)
    ensures var z := Run(s, PREPARE_NEW);
      z.now == ROUND_TIMEOUT && z.jobs == map[1 := NEW_UPLOADED] &&
        z.db == PutBlock(WithSecond(s.db), NEW_JOB, "new", 0)
  {
    hide Register, PutBlock, CommitStep, UploadStep, BeginStep, ClassifyStep, LoadFreshStep;
    var e := PREPARE_NEW;
    var s1 := s.(db := WithSecond(s.db));
    IngestSecond(s);
    Then(s, [], e[0], e[..1]);
    BeginNew(s1, s.db);
    Then(s, e[..1], e[1], e[..2]);
    ReadOld(s1.(jobs := map[1 := READ_JOB]));
    Then(s, e[..2], e[2], e[..3]);
    ClassifyOld(s1.(jobs := map[1 := LOADED_JOB]));
    Then(s, e[..3], e[3], e[..4]);
    LoadSecond(s1.(jobs := map[1 := KEPT_JOB]));
    Then(s, e[..4], e[4], e[..5]);
    UploadNew(s1.(jobs := map[1 := NEW_JOB]));
    Then(s, e[..5], e[5], e[..6]);
    Then(s, e[..6], e[6], e);
  }

  lemma CommitNew(s: State)
    requires s.jobs == map[1 := NEW_UPLOADED] && s.now == ROUND_TIMEOUT && IsActive(s.db.blocks, "old")
    ensures Apply(s, SUPERSEDE[0]).db == Register(s.db, NEW_UPLOADED, "new") &&
      Apply(s, SUPERSEDE[0]).now == ROUND_TIMEOUT
  {
  }

  lemma DeleteOld(s: State)
    requires "old" in s.db.blocks && s.db.blocks["old"].objectKey == OLD_KEY && s.db.blocks["old"].status == Superseded
    requires s.db.blocks["old"].supersededAt == Some(0) && s.now == ROUND_TIMEOUT + READER_GRACE + 1
    ensures var z := Apply(s, SUPERSEDE[2]);
      OLD_KEY !in z.db.objects && z.now == s.now && z.db.windows == s.db.windows
  {
  }

  lemma RegisteredNew(st: Store)
    requires IsActive(st.blocks, "old") && st.blocks["old"].objectKey == OLD_KEY && 0 in st.windows
    ensures var z := Register(st, NEW_UPLOADED, "new");
      && 0 in z.windows && "old" in z.blocks && z.blocks["old"].objectKey == OLD_KEY
      && z.blocks["old"].status == Superseded && z.blocks["old"].supersededAt == Some(0)
  {
  }

  lemma SupersedeOld(s: State)
    requires s.jobs == map[1 := NEW_UPLOADED] && s.now == ROUND_TIMEOUT && 0 in s.db.windows
    requires IsActive(s.db.blocks, "old") && s.db.blocks["old"].objectKey == OLD_KEY
    ensures Survives(s, SUPERSEDE, 0)
    ensures Run(s, SUPERSEDE).now == s.now + READER_GRACE + 1 && OLD_KEY !in Run(s, SUPERSEDE).db.objects
  {
    hide Register, PutBlock, CommitStep, UploadStep, BeginStep, ClassifyStep, LoadFreshStep;
    var e := SUPERSEDE;
    CommitNew(s);
    RegisteredNew(s.db);
    Then(s, [], e[0], e[..1]);
    Then(s, e[..1], e[1], e[..2]);
    DeleteOld(Run(s, e[..2]));
    Then(s, e[..2], e[2], e);
    assert e[..0] == [] && e[..3] == e;
  }

  lemma {:induction false} RunJoins(s: State, first: seq<Event>, rest: seq<Event>)
    ensures Run(s, first + rest) == Run(Run(s, first), rest)
    decreases |rest|
  {
    if rest == [] {
      assert first + rest == first;
    } else {
      var init, e := rest[..|rest| - 1], rest[|rest| - 1];
      RunJoins(s, first, init);
      Then(s, first + init, e, first + rest);
    }
  }

  /** A compaction that takes its whole round leaves its readers one second less than they need. */
  lemma LateReaderMisses()
    ensures InFlight(BUILD_OLD + PREPARE_NEW, SUPERSEDE, 0, READER_GRACE + 1)
    ensures !Served(BUILD_OLD + PREPARE_NEW, SUPERSEDE, 0)
  {
    BuildOld(INIT);
    PrepareNew(Run(INIT, BUILD_OLD));
    RunJoins(INIT, BUILD_OLD, PREPARE_NEW);
    SupersedeOld(Run(INIT, BUILD_OLD + PREPARE_NEW));
  }

  /** Readers are served for the superseded-block grace period less one round, and not for a second longer;
      in particular not for the whole grace period. */
  lemma ServedExactlyWithinGrace(d: Time)
    ensures AllServed(d) <==> d <= READER_GRACE
  {
    if d <= READER_GRACE {
      forall events, more, w | InFlight(events, more, w, d)
        ensures Served(events, more, w)
      {
        GraceCoversReadersInFlight(events, more, w);
      }
    } else {
      LateReaderMisses();
      assert InFlight(BUILD_OLD + PREPARE_NEW, SUPERSEDE, 0, d);
    }
  }

  // ----- Minute objects have no grace period -----

  /** As `InFlight`, for a reader that took the key of a minute object. */
  ghost predicate InFlightMinute(events: seq<Event>, more: seq<Event>, w: nat, d: Time) {
    var s := Run(INIT, events);
    && w in s.db.windows && s.db.windows[w].objectKey.MinuteKey? && Survives(s, more, w)
    && Run(s, more).now <= s.now + d
  }

  const COLLECT := [Commit(0), DeleteDoomed(MinuteKey("s", "b1"))]

  lemma DeleteSource(s: State)
    requires MinuteKey("s", "b1") in s.doomed
    ensures var z := Apply(s, COLLECT[1]);
      z.now == s.now && z.db.windows == s.db.windows && MinuteKey("s", "b1") !in z.db.objects
  {
  }

  lemma CollectSource(s: State)
    requires s.jobs == map[0 := OLD_UPLOADED] && s.now == 0 && s.db.blocks == map[] && 0 in s.db.windows
    ensures Survives(s, COLLECT, 0) && Run(s, COLLECT).now == s.now
    ensures MinuteKey("s", "b1") !in Run(s, COLLECT).db.objects
  {
    hide Run, Apply, Register;
    RunNone(s);
    Then(s, [], COLLECT[0], COLLECT[..1]);
    CommitOld(s);
    Then(s, COLLECT[..1], COLLECT[1], COLLECT);
    DeleteSource(Run(s, COLLECT[..1]));
    assert COLLECT[..0] == [] && COLLECT[..2] == COLLECT;
  }

  /** A reader that holds a minute key has no time at all: its object may be deleted right after the commit. */
  lemma MinuteReadersHaveNoGrace(d: nat)
    ensures exists events, more, w :: InFlightMinute(events, more, w, d) && !Served(events, more, w)
  {
    hide Apply, Run;
    UploadedOld(INIT);
    CollectSource(Run(INIT, BUILD_OLD[..4]));
    assert InFlightMinute(BUILD_OLD[..4], COLLECT, 0, d) && !Served(BUILD_OLD[..4], COLLECT, 0);
  }
}

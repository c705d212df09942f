/**
 Artifacts, the content-addressed blobs they share, and the protocol by which cleaners, the migrator and
 the analysis registrar change them. Every transaction is one step; steps of all workers interleave freely,
 so a step may act on a row that has changed since the worker last read it.
 */
module BlobLifecycle {
  import opened Wrappers

  type BlobId = nat
  type Tid = string

  datatype Content = Content(sha256: string, format: string, compression: string)
  datatype BlobStatus = Uploading | Ready | Failed | Deleting | Deleted
  datatype Blob = Blob(content: Content, status: BlobStatus, deletedAt: bool, attempts: nat)

  datatype ArtifactStatus = ArtifactUploading | ArtifactReady | ArtifactFailed | ArtifactDeleting | ArtifactDeleted

  /** Rows are unique in these three columns and are never removed. */
  datatype ArtifactKey = ArtifactKey(task: Tid, kind: string, objectKey: string)
  datatype Artifact = Artifact(status: ArtifactStatus, deletedAt: bool, blob: Option<BlobId>)
  datatype Task = Task(pinned: bool, deleted: bool)

  /** symbols is the symbol file ledger: object key to blob. */
  datatype State = State(
    blobs: map<BlobId, Blob>,
    artifacts: map<ArtifactKey, Artifact>,
    symbols: map<string, Option<BlobId>>,
    tasks: map<Tid, Task>)

  const INIT: State := State(map[], map[], map[], map[])

  datatype Event =
    | CreateTask(tid: Tid)
    | DeleteTask(tid: Tid)
    | Pin(tid: Tid)
    | Unpin(tid: Tid)
    | AddArtifact(key: ArtifactKey, status: ArtifactStatus)
    | AddSymbol(objectKey: string)
    | Register(key: ArtifactKey, content: Content, newId: BlobId)
    | RecordKernel(key: ArtifactKey, ledgerBlob: Option<BlobId>)
    | MigrateReuse(oldKey: string, blob: BlobId, artifacts: bool, symbols: bool)
    | MigrateCreate(oldKey: string, content: Content, newId: BlobId, artifacts: bool, symbols: bool)
    | ClaimExpired(key: ArtifactKey, seen: ArtifactStatus)
    | ClaimForDeletedTask(key: ArtifactKey, seen: ArtifactStatus)
    | RetryClaim(key: ArtifactKey)
    | CompleteArtifact(key: ArtifactKey)
    | ClaimBlob(blob: BlobId)
    | FailBlob(blob: BlobId, seenAttempts: nat)
    | TombstoneBlob(blob: BlobId)
    | BackToReady(blob: BlobId)
    | DropSymbols(blob: BlobId)

  // References

  /** What counts as a reference: neither tombstoned nor on its way to it. */
  predicate Live(a: Artifact) {
    !a.deletedAt && a.status != ArtifactDeleting && a.status != ArtifactDeleted
  }

  function ArtifactRefs(s: State, b: BlobId): set<ArtifactKey> {
    set k | k in s.artifacts && Live(s.artifacts[k]) && s.artifacts[k].blob == Some(b)
  }

  function SymbolRefs(s: State, b: BlobId): set<string> {
    set k | k in s.symbols && s.symbols[k] == Some(b)
  }

  function RefCount(s: State, b: BlobId): nat {
    |ArtifactRefs(s, b)| + |SymbolRefs(s, b)|
  }

  predicate IsReady(blobs: map<BlobId, Blob>, b: BlobId) {
    b in blobs && blobs[b].status == Ready && !blobs[b].deletedAt
  }

  // Steps

  ghost predicate HasContent(blobs: map<BlobId, Blob>, content: Content) {
    exists b :: b in blobs && blobs[b].content == content
  }

  ghost function IdOf(blobs: map<BlobId, Blob>, content: Content): BlobId
    requires HasContent(blobs, content)
  {
    var b :| b in blobs && blobs[b].content == content; b
  }

  /** The row of a content: a new ready one, the existing one made ready again, or none while it is being
      deleted or uploaded. */
  ghost function UpsertBlob(blobs: map<BlobId, Blob>, content: Content, newId: BlobId, uploadingBusy: bool)
    : Option<(map<BlobId, Blob>, BlobId)>
  {
    if !HasContent(blobs, content) then
      if newId in blobs then None else Some((blobs[newId := Blob(content, Ready, false, 0)], newId))
    else
      var b := IdOf(blobs, content);
      if blobs[b].status == Deleting || (uploadingBusy && blobs[b].status == Uploading) then None
      else if uploadingBusy && blobs[b].status == Ready then Some((blobs, b))
      else Some((blobs[b := Blob(content, Ready, false, 0)], b))
  }

  /** Inserts the artifact or overwrites it, unless it is a tombstone. */
  function UpsertArtifact(artifacts: map<ArtifactKey, Artifact>, key: ArtifactKey,
                          blob: Option<BlobId>): map<ArtifactKey, Artifact>
  {
    if key in artifacts && artifacts[key].deletedAt then artifacts
    else artifacts[key := Artifact(ArtifactReady, false, blob)]
  }

  function SwitchArtifacts(artifacts: map<ArtifactKey, Artifact>, oldKey: string,
                           b: BlobId): map<ArtifactKey, Artifact>
  {
    map k | k in artifacts ::
      if k.objectKey == oldKey && Live(artifacts[k]) then artifacts[k].(blob := Some(b)) else artifacts[k]
  }

  function SwitchSymbols(symbols: map<string, Option<BlobId>>, oldKey: string, b: BlobId): map<string, Option<BlobId>> {
    if oldKey in symbols then symbols[oldKey := Some(b)] else symbols
  }

  function SwitchRefs(s: State, oldKey: string, b: BlobId, artifacts: bool, symbols: bool): State {
    if !IsReady(s.blobs, b) then s
    else s.(artifacts := if artifacts then SwitchArtifacts(s.artifacts, oldKey, b) else s.artifacts,
            symbols := if symbols then SwitchSymbols(s.symbols, oldKey, b) else s.symbols)
  }

  /** The claim is a compare-and-swap on the status the cleaner saw. */
  predicate Claimable(s: State, key: ArtifactKey, seen: ArtifactStatus) {
    key in s.artifacts && s.artifacts[key].status == seen && !s.artifacts[key].deletedAt
  }

  predicate Protected(s: State, tid: Tid) {
    tid != "" && tid in s.tasks && (s.tasks[tid].deleted || s.tasks[tid].pinned)
  }

  function SetStatus(s: State, key: ArtifactKey, status: ArtifactStatus): State
    requires key in s.artifacts
  {
    s.(artifacts := s.artifacts[key := s.artifacts[key].(status := status)])
  }

  predicate AnyDeleting(s: State, tid: Tid) {
    exists k | k in s.artifacts :: k.task == tid && s.artifacts[k].status == ArtifactDeleting &&
      !s.artifacts[k].deletedAt
  }

  predicate IsDeleting(blobs: map<BlobId, Blob>, b: BlobId) {
    b in blobs && blobs[b].status == Deleting
  }

  ghost function Apply(s: State, e: Event): State {
    match e
    case CreateTask(tid) => if tid in s.tasks || tid == "" then s else s.(tasks := s.tasks[tid := Task(false, false)])
    case DeleteTask(tid) => if tid in s.tasks then s.(tasks := s.tasks[tid := s.tasks[tid].(deleted := true)]) else s
    case Pin(tid) =>
      if tid in s.tasks && !s.tasks[tid].deleted && !AnyDeleting(s, tid)
      then s.(tasks := s.tasks[tid := s.tasks[tid].(pinned := true)]) else s
    case Unpin(tid) =>
      if tid in s.tasks && !s.tasks[tid].deleted then s.(tasks := s.tasks[tid := s.tasks[tid].(pinned := false)]) else s
    case AddArtifact(key, status) =>
      if key in s.artifacts || status == ArtifactDeleting || status == ArtifactDeleted then s
      else s.(artifacts := s.artifacts[key := Artifact(status, false, None)])
    case AddSymbol(objectKey) =>
      if objectKey in s.symbols then s else s.(symbols := s.symbols[objectKey := None])
    case Register(key, content, newId) =>
      (match UpsertBlob(s.blobs, content, newId, true)
       case None => s
       case Some(r) => s.(blobs := r.0, artifacts := UpsertArtifact(s.artifacts, key, Some(r.1))))
    case RecordKernel(key, blob) =>
      if (blob.Some? && !IsReady(s.blobs, blob.value)) || (key in s.artifacts && s.artifacts[key].deletedAt) then s
      else s.(artifacts := UpsertArtifact(s.artifacts, key, blob))
    case MigrateReuse(oldKey, blob, artifacts, symbols) => SwitchRefs(s, oldKey, blob, artifacts, symbols)
    case MigrateCreate(oldKey, content, newId, artifacts, symbols) =>
      (match UpsertBlob(s.blobs, content, newId, false)
       case None => s
       case Some(r) => SwitchRefs(s.(blobs := r.0), oldKey, r.1, artifacts, symbols))
    case ClaimExpired(key, seen) =>
      if Claimable(s, key, seen) && !Protected(s, key.task) then SetStatus(s, key, ArtifactDeleting) else s
    case ClaimForDeletedTask(key, seen) =>
      if Claimable(s, key, seen) && key.task in s.tasks && s.tasks[key.task].deleted
        then SetStatus(s, key, ArtifactDeleting) else s
    case RetryClaim(key) =>
      if Claimable(s, key, ArtifactDeleting) then SetStatus(s, key, ArtifactDeleting) else s
    case CompleteArtifact(key) =>
      if key in s.artifacts && s.artifacts[key].status == ArtifactDeleting
      then s.(artifacts := s.artifacts[key := s.artifacts[key].(status := ArtifactDeleted, deletedAt := true)]) else s
    case ClaimBlob(b) =>
      if IsReady(s.blobs, b) && RefCount(s, b) == 0 then
        s.(blobs := s.blobs[b := s.blobs[b].(status := Deleting)])
      else s
    case FailBlob(b, seenAttempts) =>
      if IsDeleting(s.blobs, b) then s.(blobs := s.blobs[b := s.blobs[b].(attempts := seenAttempts + 1)]) else s
    case TombstoneBlob(b) =>
      if IsDeleting(s.blobs, b) then s.(blobs := s.blobs[b := s.blobs[b].(status := Deleted, deletedAt := true)]) else s
    case BackToReady(b) =>
      if IsDeleting(s.blobs, b) then s.(blobs := s.blobs[b := s.blobs[b].(status := Ready, attempts := 0)]) else s
    case DropSymbols(b) => s.(symbols := map k | k in s.symbols && s.symbols[k] != Some(b) :: s.symbols[k])
  }

  ghost function Run(s: State, events: seq<Event>): State {
    if events == [] then s else Apply(Run(s, events[..|events| - 1]), events[|events| - 1])
  }

  // The invariant

  ghost predicate BlobsOk(blobs: map<BlobId, Blob>) {
    && (forall b :: b in blobs ==> (blobs[b].deletedAt <==> blobs[b].status == Deleted))
    && (forall b, c :: b in blobs && c in blobs && blobs[b].content == blobs[c].content ==> b == c)
  }

  /** Every live reference names a ready blob. */
  ghost predicate ArtifactsReady(blobs: map<BlobId, Blob>, artifacts: map<ArtifactKey, Artifact>) {
    forall k :: k in artifacts && Live(artifacts[k]) && artifacts[k].blob.Some? ==>
      IsReady(blobs, artifacts[k].blob.value)
  }

  ghost predicate SymbolsReady(blobs: map<BlobId, Blob>, symbols: map<string, Option<BlobId>>) {
    forall k :: k in symbols && symbols[k].Some? ==> IsReady(blobs, symbols[k].value)
  }

  ghost predicate TombstonesOk(artifacts: map<ArtifactKey, Artifact>) {
    forall k :: k in artifacts ==> (artifacts[k].deletedAt <==> artifacts[k].status == ArtifactDeleted)
  }

  predicate PinHolds(tasks: map<Tid, Task>, tid: Tid) {
    tid in tasks && tasks[tid].pinned && !tasks[tid].deleted
  }

  ghost predicate PinsOk(tasks: map<Tid, Task>, artifacts: map<ArtifactKey, Artifact>) {
    forall k :: k in artifacts && PinHolds(tasks, k.task) ==> artifacts[k].status != ArtifactDeleting
  }

  ghost predicate Inv(s: State) {
    && BlobsOk(s.blobs)
    && ArtifactsReady(s.blobs, s.artifacts)
    && SymbolsReady(s.blobs, s.symbols)
    && TombstonesOk(s.artifacts)
    && PinsOk(s.tasks, s.artifacts) && "" !in s.tasks
  }

  lemma NoRefs(s: State, b: BlobId)
    ensures RefCount(s, b) == 0 <==>
      (forall k :: k in s.artifacts && Live(s.artifacts[k]) ==> s.artifacts[k].blob != Some(b)) &&
      (forall k :: k in s.symbols ==> s.symbols[k] != Some(b))
  {
    if RefCount(s, b) == 0 {
      assert ArtifactRefs(s, b) == {} && SymbolRefs(s, b) == {};
      forall k | k in s.artifacts && Live(s.artifacts[k]) ensures s.artifacts[k].blob != Some(b) {
        assert k !in ArtifactRefs(s, b);
      }
      forall k | k in s.symbols ensures s.symbols[k] != Some(b) {
        assert k !in SymbolRefs(s, b);
      }
    }
    if (forall k :: k in s.artifacts && Live(s.artifacts[k]) ==> s.artifacts[k].blob != Some(b)) &&
       (forall k :: k in s.symbols ==> s.symbols[k] != Some(b)) {
      assert ArtifactRefs(s, b) == {} && SymbolRefs(s, b) == {};
    }
  }

  /** An upsert leaves every ready blob ready and returns a ready one with the content asked for. */
  lemma UpsertKeeps(blobs: map<BlobId, Blob>, content: Content, newId: BlobId, uploadingBusy: bool)
    requires BlobsOk(blobs)
    ensures var r := UpsertBlob(blobs, content, newId, uploadingBusy);
      r.Some? ==>
        && BlobsOk(r.value.0)
        && IsReady(r.value.0, r.value.1) && r.value.0[r.value.1].content == content
        && (r.value.1 in blobs ==> blobs[r.value.1].content == content)
        && (forall b :: IsReady(blobs, b) ==> IsReady(r.value.0, b))
        && (forall b :: b in blobs && b != r.value.1 ==> b in r.value.0 && r.value.0[b] == blobs[b])
  {
  }

  lemma ArtifactsStay(blobs: map<BlobId, Blob>, kept: map<BlobId, Blob>, artifacts: map<ArtifactKey, Artifact>,
                      symbols: map<string, Option<BlobId>>)
    requires ArtifactsReady(blobs, artifacts) && SymbolsReady(blobs, symbols)
    requires forall b :: IsReady(blobs, b) ==> IsReady(kept, b)
    ensures ArtifactsReady(kept, artifacts) && SymbolsReady(kept, symbols)
  {
  }

  lemma UpsertArtifactKeeps(s: State, key: ArtifactKey, blob: Option<BlobId>)
    requires Inv(s) && (blob.Some? ==> IsReady(s.blobs, blob.value))
    ensures Inv(s.(artifacts := UpsertArtifact(s.artifacts, key, blob)))
  {
  }

  lemma SwitchKeeps(s: State, oldKey: string, b: BlobId, artifacts: bool, symbols: bool)
    requires Inv(s)
    ensures Inv(SwitchRefs(s, oldKey, b, artifacts, symbols))
  {
  }

  lemma StepKeeps(s: State, e: Event)
    requires Inv(s)
    ensures Inv(Apply(s, e))
  {
    match e {
      case Register(key, content, newId) =>
        RegisterKeeps(s, key, content, newId);
      case MigrateCreate(oldKey, content, newId, artifacts, symbols) =>
        UpsertKeeps(s.blobs, content, newId, false);
        var r := UpsertBlob(s.blobs, content, newId, false);
        if r.Some? {
          ArtifactsStay(s.blobs, r.value.0, s.artifacts, s.symbols);
          SwitchKeeps(s.(blobs := r.value.0), oldKey, r.value.1, artifacts, symbols);
        }
      case RecordKernel(key, blob) =>
        if blob.None? || IsReady(s.blobs, blob.value) {
          UpsertArtifactKeeps(s, key, blob);
        }
      case MigrateReuse(oldKey, blob, artifacts, symbols) =>
        SwitchKeeps(s, oldKey, blob, artifacts, symbols);
      case ClaimBlob(b) =>
        ClaimKeeps(s, b);
      case _ =>
        OtherKeeps(s, e);
    }
  }

  lemma RegisterKeeps(s: State, key: ArtifactKey, content: Content, newId: BlobId)
    requires Inv(s)
    ensures Inv(Apply(s, Register(key, content, newId)))
  {
    UpsertKeeps(s.blobs, content, newId, true);
    var r := UpsertBlob(s.blobs, content, newId, true);
    if r.Some? {
      ArtifactsStay(s.blobs, r.value.0, s.artifacts, s.symbols);
      UpsertArtifactKeeps(s.(blobs := r.value.0), key, Some(r.value.1));
    }
  }

  lemma ClaimKeeps(s: State, b: BlobId)
    requires Inv(s)
    ensures Inv(Apply(s, ClaimBlob(b)))
  {
    NoRefs(s, b);
  }

  predicate AboutTasks(e: Event) {
    e.CreateTask? || e.DeleteTask? || e.Pin? || e.Unpin?
  }

  lemma TasksKeep(s: State, e: Event)
    requires Inv(s) && AboutTasks(e)
    ensures Inv(Apply(s, e))
  {
    hide UpsertBlob, UpsertArtifact, SwitchRefs, RefCount, ArtifactsReady, SymbolsReady, BlobsOk;
  }

  lemma OtherKeeps(s: State, e: Event)
    requires Inv(s)
    requires !e.Register? && !e.MigrateCreate? && !e.RecordKernel? && !e.MigrateReuse? && !e.ClaimBlob?
    ensures Inv(Apply(s, e))
  {
    hide UpsertBlob, UpsertArtifact, SwitchRefs, RefCount;
    if AboutTasks(e) {
      TasksKeep(s, e);
    }
  }

  // Whole runs

  lemma {:induction false} RunKeeps(events: seq<Event>)
    ensures Inv(Run(INIT, events))
  {
    hide Inv, Apply;
    if events == [] {
      InitHolds();
    } else {
      RunKeeps(events[..|events| - 1]);
      StepKeeps(Run(INIT, events[..|events| - 1]), events[|events| - 1]);
    }
  }

  lemma InitHolds()
    ensures Inv(INIT)
  {
  }

  /** Whatever the workers did, a blob that is being deleted or is gone has no reference. */
  lemma GoneBlobsUnreferenced(events: seq<Event>, b: BlobId)
    ensures var s := Run(INIT, events);
      b in s.blobs && (s.blobs[b].status == Deleting || s.blobs[b].status == Deleted) ==> RefCount(s, b) == 0
  {
    RunKeeps(events);
    NoRefs(Run(INIT, events), b);
  }

  /** Whatever the workers did, what a live artifact or symbol file names is there and ready. */
  lemma LiveReferencesReady(events: seq<Event>)
    ensures var s := Run(INIT, events);
      && (forall k :: k in s.artifacts && Live(s.artifacts[k]) && s.artifacts[k].blob.Some? ==>
        IsReady(s.blobs, s.artifacts[k].blob.value))
      && (forall k :: k in s.symbols && s.symbols[k].Some? ==> IsReady(s.blobs, s.symbols[k].value))
  {
    RunKeeps(events);
  }

  /** Content is stored once. */
  lemma OneBlobPerContent(events: seq<Event>, b: BlobId, c: BlobId)
    ensures var s := Run(INIT, events);
      b in s.blobs && c in s.blobs && s.blobs[b].content == s.blobs[c].content ==> b == c
  {
    RunKeeps(events);
  }

  /** Pinning and expiry cleaning are linearised: no artifact of a pinned task is ever being deleted. */
  lemma PinnedNeverDeleting(events: seq<Event>, key: ArtifactKey)
    ensures var s := Run(INIT, events);
      key in s.artifacts && PinHolds(s.tasks, key.task) ==> s.artifacts[key].status != ArtifactDeleting
  {
    RunKeeps(events);
  }

  lemma TombstoneStep(s: State, e: Event, key: ArtifactKey)
    requires Inv(s) && key in s.artifacts && s.artifacts[key].deletedAt
    ensures key in Apply(s, e).artifacts && Apply(s, e).artifacts[key] == s.artifacts[key]
  {
    assert s.artifacts[key].status == ArtifactDeleted && !Live(s.artifacts[key]);
  }

  /** A tombstone is for ever: no later step of any kind brings the artifact back. */
  lemma {:induction false} TombstoneForever(before: seq<Event>, later: seq<Event>, key: ArtifactKey)
    requires key in Run(INIT, before).artifacts && Run(INIT, before).artifacts[key].deletedAt
    ensures var z := Run(INIT, before + later);
      key in z.artifacts && z.artifacts[key] == Run(INIT, before).artifacts[key] && !Live(z.artifacts[key])
  {
    hide Inv, Apply;
    if later == [] {
      assert before + later == before;
    } else {
      var n := |later| - 1;
      TombstoneForever(before, later[..n], key);
      assert (before + later)[..|before + later| - 1] == before + later[..n];
      RunKeeps(before + later[..n]);
      TombstoneStep(Run(INIT, before + later[..n]), later[n], key);
    }
  }

  // What single steps achieve

  /** A registration either links the artifact to a ready blob of its content, or is refused: because that
      blob is on its way out or still being written, or because the artifact is a tombstone. */
  lemma RegisterLinks(s: State, key: ArtifactKey, content: Content, newId: BlobId)
    requires Inv(s) && newId !in s.blobs
    ensures var z := Apply(s, Register(key, content, newId));
      if HasContent(s.blobs, content) && s.blobs[IdOf(s.blobs, content)].status in {Deleting, Uploading} then z == s
      else if key in s.artifacts && s.artifacts[key].deletedAt then z.artifacts == s.artifacts
      else key in z.artifacts && Live(z.artifacts[key]) && z.artifacts[key].blob.Some? &&
           IsReady(z.blobs, z.artifacts[key].blob.value) && z.blobs[z.artifacts[key].blob.value].content == content
  {
    UpsertKeeps(s.blobs, content, newId, true);
  }

  /** What could refer to the blob again, or write its row anew. */
  predicate Links(e: Event, b: BlobId, content: Content) {
    || ((e.Register? || e.MigrateCreate?) && e.content == content)
    || (e.RecordKernel? && e.ledgerBlob == Some(b))
    || (e.MigrateReuse? && e.blob == b)
  }

  ghost predicate Abandoned(s: State, b: BlobId, content: Content) {
    && b in s.blobs && s.blobs[b].content == content && s.blobs[b].status in {Ready, Deleting, Deleted}
    && (forall k :: k in s.artifacts && Live(s.artifacts[k]) ==> s.artifacts[k].blob != Some(b))
    && (forall k :: k in s.symbols ==> s.symbols[k] != Some(b))
  }

  lemma AbandonedStep(s: State, e: Event, b: BlobId, content: Content)
    requires Inv(s) && Abandoned(s, b, content) && !Links(e, b, content)
    ensures Abandoned(Apply(s, e), b, content)
  {
    if e.Register? || e.MigrateCreate? {
      AbandonedByUpsert(s, e, b, content);
    } else {
      AbandonedByOther(s, e, b, content);
    }
  }

  lemma AbandonedByUpsert(s: State, e: Event, b: BlobId, content: Content)
    requires Inv(s) && Abandoned(s, b, content) && (e.Register? || e.MigrateCreate?) && e.content != content
    ensures Abandoned(Apply(s, e), b, content)
  {
    hide UpsertBlob;
    UpsertKeeps(s.blobs, e.content, e.newId, e.Register?);
    var r := UpsertBlob(s.blobs, e.content, e.newId, e.Register?);
    if r.Some? {
      assert r.value.1 != b;
      assert e.MigrateCreate? ==>
        Apply(s, e) == SwitchRefs(s.(blobs := r.value.0), e.oldKey, r.value.1, e.artifacts, e.symbols);
    }
  }

  lemma AbandonedByOther(s: State, e: Event, b: BlobId, content: Content)
    requires Inv(s) && Abandoned(s, b, content) && !Links(e, b, content) && !e.Register? && !e.MigrateCreate?
    ensures Abandoned(Apply(s, e), b, content)
  {
    hide UpsertBlob, RefCount, AnyDeleting, Protected, BlobsOk, PinsOk;
  }

  lemma {:induction false} AbandonedAlong(before: seq<Event>, later: seq<Event>, b: BlobId, content: Content)
    requires Abandoned(Run(INIT, before), b, content) && forall e :: e in later ==> !Links(e, b, content)
    ensures Abandoned(Run(INIT, before + later), b, content)
  {
    hide Inv, Apply, Abandoned;
    if later == [] {
      assert before + later == before;
    } else {
      var n := |later| - 1;
      AbandonedAlong(before, later[..n], b, content);
      assert (before + later)[..|before + later| - 1] == before + later[..n];
      RunKeeps(before + later[..n]);
      AbandonedStep(Run(INIT, before + later[..n]), later[n], b, content);
    }
  }

  /** A ready blob that lost its last reference is collected: whatever else happens, unless it is linked
      again, after the next claim its row is being deleted or gone. */
  lemma UnreferencedIsCollected(before: seq<Event>, later: seq<Event>, b: BlobId)
    requires IsReady(Run(INIT, before).blobs, b) && RefCount(Run(INIT, before), b) == 0
    requires forall e :: e in later ==> !Links(e, b, Run(INIT, before).blobs[b].content)
    ensures var z := Run(INIT, before + later + [ClaimBlob(b)]);
      b in z.blobs && z.blobs[b].status in {Deleting, Deleted} && RefCount(z, b) == 0
  {
    var s, all := Run(INIT, before), before + later;
    NoRefs(s, b);
    AbandonedAlong(before, later, b, s.blobs[b].content);
    RunKeeps(all);
    NoRefs(Run(INIT, all), b);
    assert (all + [ClaimBlob(b)])[..|all|] == all;
    NoRefs(Run(INIT, all + [ClaimBlob(b)]), b);
  }

  function LiveOf(s: State, objectKey: string): set<ArtifactKey> {
    set k | k in s.artifacts && k.objectKey == objectKey && Live(s.artifacts[k])
  }

  /** A switch adds the live references of the old key to those of the new blob and takes them from every
      other blob; each is counted once, also when it referred to the new blob before. */
  lemma SwitchMoves(s: State, oldKey: string, b: BlobId, artifacts: bool, symbols: bool, c: BlobId)
    requires IsReady(s.blobs, b) && c != b
    ensures var z := Apply(s, MigrateReuse(oldKey, b, artifacts, symbols));
      var moved := if artifacts then LiveOf(s, oldKey) else {};
      var movedSymbols := if symbols && oldKey in s.symbols then {oldKey} else {};
      && RefCount(z, b) == |ArtifactRefs(s, b) + moved| + |SymbolRefs(s, b) + movedSymbols|
      && RefCount(z, c) == |ArtifactRefs(s, c) - moved| + |SymbolRefs(s, c) - movedSymbols|
  {
    hide SwitchArtifacts, SwitchSymbols, ArtifactRefs, SymbolRefs, LiveOf;
    var z := Apply(s, MigrateReuse(oldKey, b, artifacts, symbols));
    assert z == SwitchRefs(s, oldKey, b, artifacts, symbols);
    ArtifactsMove(s, z, oldKey, b, artifacts, c);
    SymbolsMove(s, z, oldKey, b, symbols, c);
  }

  lemma ArtifactsMove(s: State, z: State, oldKey: string, b: BlobId, artifacts: bool, c: BlobId)
    requires c != b && z.artifacts == if artifacts then SwitchArtifacts(s.artifacts, oldKey, b) else s.artifacts
    ensures var moved := if artifacts then LiveOf(s, oldKey) else {};
      ArtifactRefs(z, b) == ArtifactRefs(s, b) + moved && ArtifactRefs(z, c) == ArtifactRefs(s, c) - moved
  {
  }

  lemma SymbolsMove(s: State, z: State, oldKey: string, b: BlobId, symbols: bool, c: BlobId)
    requires c != b && z.symbols == if symbols then SwitchSymbols(s.symbols, oldKey, b) else s.symbols
    ensures var moved := if symbols && oldKey in s.symbols then {oldKey} else {};
      SymbolRefs(z, b) == SymbolRefs(s, b) + moved && SymbolRefs(z, c) == SymbolRefs(s, c) - moved
  {
  }

  /** Exactly the live artifacts and the symbol file of the old key, as far as asked, refer anew to the blob. */
  ghost predicate Relinked(s: State, z: State, oldKey: string, b: BlobId, artifacts: bool, symbols: bool) {
    && z.artifacts.Keys == s.artifacts.Keys && z.symbols.Keys == s.symbols.Keys
    && (forall k :: k in s.artifacts ==>
          if artifacts && k.objectKey == oldKey && Live(s.artifacts[k])
          then z.artifacts[k] == s.artifacts[k].(blob := Some(b)) else z.artifacts[k] == s.artifacts[k])
    && (forall k :: k in s.symbols ==> z.symbols[k] == if symbols && k == oldKey then Some(b) else s.symbols[k])
  }

  lemma SwitchRelinks(s: State, oldKey: string, b: BlobId, artifacts: bool, symbols: bool)
    requires IsReady(s.blobs, b)
    ensures var z := SwitchRefs(s, oldKey, b, artifacts, symbols);
      Relinked(s, z, oldKey, b, artifacts, symbols) && z.blobs == s.blobs && z.tasks == s.tasks
  {
  }

  /** The blob a migration brings: a new row, or that of its content made ready again. */
  lemma UpsertWrites(blobs: map<BlobId, Blob>, content: Content, newId: BlobId)
    requires BlobsOk(blobs) && newId !in blobs
    requires forall x :: x in blobs && blobs[x].content == content ==> blobs[x].status != Deleting
    ensures var r := UpsertBlob(blobs, content, newId, false);
      && r.Some? && r.value.0 == blobs[r.value.1 := Blob(content, Ready, false, 0)]
      && (if r.value.1 in blobs then blobs[r.value.1].content == content else r.value.1 == newId)
  {
  }

  /** A migration that brings its own blob: unless the row of its content is being deleted, that row is then
      ready, the references of the old key have moved to it, nothing else has changed, and references are counted
      as in a switch. */
  lemma MigrateCreateMoves(s: State, oldKey: string, content: Content, newId: BlobId, artifacts: bool, symbols: bool,
                           c: BlobId)
    returns (b: BlobId)
    requires Inv(s) && newId !in s.blobs
    requires forall x :: x in s.blobs && s.blobs[x].content == content ==> s.blobs[x].status != Deleting
    ensures var z := Apply(s, MigrateCreate(oldKey, content, newId, artifacts, symbols));
      && (if b in s.blobs then s.blobs[b].content == content else b == newId)
      && z.blobs == s.blobs[b := Blob(content, Ready, false, 0)] && z.tasks == s.tasks
      && Relinked(s, z, oldKey, b, artifacts, symbols)
    ensures var z := Apply(s, MigrateCreate(oldKey, content, newId, artifacts, symbols));
      var moved := if artifacts then LiveOf(s, oldKey) else {};
      var movedSymbols := if symbols && oldKey in s.symbols then {oldKey} else {};
      && RefCount(z, b) == |ArtifactRefs(s, b) + moved| + |SymbolRefs(s, b) + movedSymbols|
      && (c != b ==> RefCount(z, c) == |ArtifactRefs(s, c) - moved| + |SymbolRefs(s, c) - movedSymbols|)
  {
    hide Inv, UpsertBlob, RefCount, ArtifactRefs, SymbolRefs, LiveOf, Relinked, SwitchArtifacts, SwitchSymbols;
    BlobsOf(s);
    UpsertWrites(s.blobs, content, newId);
    var r := UpsertBlob(s.blobs, content, newId, false);
    b := r.value.1;
    var t := s.(blobs := r.value.0);
    SwitchRelinks(t, oldKey, b, artifacts, symbols);
    RelinkedFrom(s, t, SwitchRefs(t, oldKey, b, artifacts, symbols), oldKey, b, artifacts, symbols);
    var z := SwitchRefs(t, oldKey, b, artifacts, symbols);
    assert z == Apply(s, MigrateCreate(oldKey, content, newId, artifacts, symbols));
    CountsMove(s, z, oldKey, b, artifacts, symbols, if c != b then c else b + 1);
  }

  lemma BlobsOf(s: State)
    requires Inv(s)
    ensures BlobsOk(s.blobs)
  {
  }

  lemma RelinkedFrom(s: State, t: State, z: State, oldKey: string, b: BlobId, artifacts: bool, symbols: bool)
    requires Relinked(t, z, oldKey, b, artifacts, symbols) && t.artifacts == s.artifacts && t.symbols == s.symbols
    ensures Relinked(s, z, oldKey, b, artifacts, symbols)
  {
  }

  lemma CountsMove(s: State, z: State, oldKey: string, b: BlobId, artifacts: bool, symbols: bool, c: BlobId)
    requires c != b && z.artifacts == if artifacts then SwitchArtifacts(s.artifacts, oldKey, b) else s.artifacts
    requires z.symbols == if symbols then SwitchSymbols(s.symbols, oldKey, b) else s.symbols
    ensures var moved := if artifacts then LiveOf(s, oldKey) else {};
      var movedSymbols := if symbols && oldKey in s.symbols then {oldKey} else {};
      && RefCount(z, b) == |ArtifactRefs(s, b) + moved| + |SymbolRefs(s, b) + movedSymbols|
      && RefCount(z, c) == |ArtifactRefs(s, c) - moved| + |SymbolRefs(s, c) - movedSymbols|
  {
    hide SwitchArtifacts, SwitchSymbols, ArtifactRefs, SymbolRefs, LiveOf;
    ArtifactsMove(s, z, oldKey, b, artifacts, c);
    SymbolsMove(s, z, oldKey, b, symbols, c);
  }

  /** A legacy artifact and symbol file of one object, of a new task. */
  ghost function Legacy(s: State, key: ArtifactKey): State {
    Apply(Apply(Apply(s, CreateTask(key.task)), AddArtifact(key, ArtifactReady)), AddSymbol(key.objectKey))
  }

  /** They arrive without a blob, and the task neither pinned nor deleted. */
  lemma LegacyArrives(s: State, key: ArtifactKey)
    requires Inv(s) && key !in s.artifacts && key.objectKey !in s.symbols && key.task != "" && key.task !in s.tasks
    ensures Inv(Legacy(s, key))
    ensures Legacy(s, key) == State(s.blobs, s.artifacts[key := Artifact(ArtifactReady, false, None)],
                                    s.symbols[key.objectKey := None], s.tasks[key.task := Task(false, false)])
  {
    hide Inv;
    StepKeeps(s, CreateTask(key.task));
    StepKeeps(Apply(s, CreateTask(key.task)), AddArtifact(key, ArtifactReady));
    StepKeeps(Apply(Apply(s, CreateTask(key.task)), AddArtifact(key, ArtifactReady)), AddSymbol(key.objectKey));
  }

  /** A migration gives both of them one, which then cannot be claimed. */
  lemma LegacyIsMigrated(s: State, key: ArtifactKey, content: Content, newId: BlobId)
    requires Inv(s) && key !in s.artifacts && key.objectKey !in s.symbols && key.task != "" && key.task !in s.tasks
    requires newId !in s.blobs && !HasContent(s.blobs, content)
    ensures var z := Apply(Legacy(s, key), MigrateCreate(key.objectKey, content, newId, true, true));
      && key in ArtifactRefs(z, newId) && key.objectKey in SymbolRefs(z, newId)
      && IsReady(z.blobs, newId) && Apply(z, ClaimBlob(newId)) == z
  {
    hide Inv, Apply, Legacy, RefCount;
    LegacyArrives(s, key);
    var t := Legacy(s, key);
    var z := Apply(t, MigrateCreate(key.objectKey, content, newId, true, true));
    var b := MigrateCreateMoves(t, key.objectKey, content, newId, true, true, newId);
    assert key in t.artifacts && Live(t.artifacts[key]) && key.objectKey in t.symbols;
    assert b == newId;
    assert z.artifacts[key].blob == Some(newId) && z.symbols[key.objectKey] == Some(newId);
    NotClaimed(z, newId, key);
  }

  lemma NotClaimed(s: State, b: BlobId, key: ArtifactKey)
    requires key in ArtifactRefs(s, b)
    ensures Apply(s, ClaimBlob(b)) == s
  {
    NoRefs(s, b);
  }

  /** A migration of a content whose row is being deleted changes nothing. */
  lemma MigrateCreateRefused(s: State, oldKey: string, content: Content, newId: BlobId, artifacts: bool, symbols: bool,
                             b: BlobId)
    requires Inv(s) && b in s.blobs && s.blobs[b].content == content && s.blobs[b].status == Deleting
    ensures Apply(s, MigrateCreate(oldKey, content, newId, artifacts, symbols)) == s
  {
  }

  /** Who may clean an artifact: pinned, only a deletion of its task; unpinned, expiry; in a deleted task, only
      the cleaning of that task. */
  lemma PinDecidesCleaning(s: State, key: ArtifactKey, seen: ArtifactStatus)
    requires Inv(s) && key.task in s.tasks && !s.tasks[key.task].deleted && !AnyDeleting(s, key.task)
    requires key in s.artifacts && s.artifacts[key].status == seen && !s.artifacts[key].deletedAt
    ensures var pinned := Apply(s, Pin(key.task));
      && Apply(pinned, ClaimExpired(key, seen)) == pinned && Apply(pinned, ClaimForDeletedTask(key, seen)) == pinned
      && Deletes(Apply(pinned, Unpin(key.task)), ClaimExpired(key, seen), key)
    ensures var gone := Apply(s, DeleteTask(key.task));
      && Apply(gone, ClaimExpired(key, seen)) == gone && Deletes(gone, ClaimForDeletedTask(key, seen), key)
      && Apply(gone, Pin(key.task)) == gone && Apply(gone, Unpin(key.task)) == gone
  {
  }

  /** The step puts the artifact into deletion and does nothing else. */
  ghost predicate Deletes(s: State, e: Event, key: ArtifactKey) {
    key in s.artifacts &&
    Apply(s, e) == s.(artifacts := s.artifacts[key := s.artifacts[key].(status := ArtifactDeleting)])
  }

  /** Recording a kernel symbol file links the artifact to the blob of the ledger, if that is ready, and leaves a
      tombstone alone. */
  lemma RecordKernelLinks(s: State, key: ArtifactKey, blob: Option<BlobId>)
    requires Inv(s)
    ensures var z := Apply(s, RecordKernel(key, blob));
      if (blob.Some? && !IsReady(s.blobs, blob.value)) || (key in s.artifacts && s.artifacts[key].deletedAt) then z == s
      else
        && z.blobs == s.blobs && z.symbols == s.symbols && key in z.artifacts && Live(z.artifacts[key])
        && z.artifacts[key].blob == blob && forall k :: k != key ==> (k in z.artifacts <==> k in s.artifacts)
  {
  }

  // Retried deletions: a list of deleting blobs, later a count of references, later a guarded update

  /** The update a retry makes for a blob it listed, after it counted the references. */
  function RetryUpdate(b: BlobId, attempts: nat, refs: nat, removed: bool): Event {
    if refs > 0 then BackToReady(b) else if removed then TombstoneBlob(b) else FailBlob(b, attempts)
  }

  lemma DeletionStep(s: State, e: Event, b: BlobId)
    requires Inv(s)
    ensures var z := Apply(s, e);
      && (IsDeleting(s.blobs, b) && !IsDeleting(z.blobs, b) ==> e == TombstoneBlob(b) || e == BackToReady(b))
      && (!IsDeleting(s.blobs, b) && IsDeleting(z.blobs, b) ==>
            e == ClaimBlob(b) && IsReady(s.blobs, b) && RefCount(s, b) == 0)
  {
    hide RefCount;
  }

  /** Another worker ended the deletion of the blob. */
  predicate Released(events: seq<Event>, b: BlobId) {
    TombstoneBlob(b) in events || BackToReady(b) in events
  }

  lemma {:induction false} DeletingUntilReleased(before: seq<Event>, later: seq<Event>, b: BlobId)
    requires IsDeleting(Run(INIT, before).blobs, b) && !Released(later, b)
    ensures IsDeleting(Run(INIT, before + later).blobs, b)
  {
    hide Inv, Apply, IsDeleting, RefCount;
    if later == [] {
      assert before + later == before;
    } else {
      var n := |later| - 1;
      assert forall e :: e in later[..n] ==> e in later;
      DeletingUntilReleased(before, later[..n], b);
      assert (before + later)[..|before + later| - 1] == before + later[..n];
      RunKeeps(before + later[..n]);
      DeletionStep(Run(INIT, before + later[..n]), later[n], b);
    }
  }

  lemma {:induction false} DeletingOnceClaimed(before: seq<Event>, later: seq<Event>, b: BlobId)
    requires !IsDeleting(Run(INIT, before).blobs, b) && ClaimBlob(b) !in later
    ensures !IsDeleting(Run(INIT, before + later).blobs, b)
  {
    hide Inv, Apply, IsDeleting, RefCount;
    if later == [] {
      assert before + later == before;
    } else {
      var n := |later| - 1;
      assert forall e :: e in later[..n] ==> e in later;
      DeletingOnceClaimed(before, later[..n], b);
      assert (before + later)[..|before + later| - 1] == before + later[..n];
      RunKeeps(before + later[..n]);
      DeletionStep(Run(INIT, before + later[..n]), later[n], b);
    }
  }

  /** A retry that lists a blob, counts its references after `toCount` and updates it after `toUpdate`, with
      all other workers in between. It finds a reference only if the deletion ended meanwhile; then it changes
      the row only if the blob was claimed again. Any update it makes hits a blob in deletion that nothing
      refers to, and keeps the invariant. */
  lemma RetryIsSafe(toList: seq<Event>, toCount: seq<Event>, toUpdate: seq<Event>, b: BlobId, removed: bool)
    requires IsDeleting(Run(INIT, toList).blobs, b)
    ensures var listed := Run(INIT, toList);
      var counted := Run(INIT, toList + toCount);
      var s := Run(INIT, toList + toCount + toUpdate);
      var z := Apply(s, RetryUpdate(b, listed.blobs[b].attempts, RefCount(counted, b), removed));
      && Inv(z)
      && (RefCount(counted, b) > 0 ==> Released(toCount, b))
      && (z != s ==> IsDeleting(s.blobs, b) && RefCount(s, b) == 0)
      && (RefCount(counted, b) > 0 && z != s ==> ClaimBlob(b) in toUpdate && IsReady(z.blobs, b) && RefCount(z, b) == 0)
  {
    hide Run, Inv, Apply, RefCount, Released;
    var attempts, refs := Run(INIT, toList).blobs[b].attempts, RefCount(Run(INIT, toList + toCount), b);
    var s := Run(INIT, toList + toCount + toUpdate);
    UnreferencedInDeletion(toList + toCount, b);
    UnreferencedInDeletion(toList + toCount + toUpdate, b);
    RunKeeps(toList + toCount + toUpdate);
    StepKeeps(s, RetryUpdate(b, attempts, refs, removed));
    UpdateStep(s, b, attempts, refs, removed);
    if refs > 0 && !Released(toCount, b) {
      DeletingUntilReleased(toList, toCount, b);
    }
    if refs > 0 && ClaimBlob(b) !in toUpdate {
      DeletingOnceClaimed(toList + toCount, toUpdate, b);
    }
  }

  lemma UnreferencedInDeletion(events: seq<Event>, b: BlobId)
    ensures IsDeleting(Run(INIT, events).blobs, b) ==> RefCount(Run(INIT, events), b) == 0
  {
    GoneBlobsUnreferenced(events, b);
  }

  lemma UpdateStep(s: State, b: BlobId, attempts: nat, refs: nat, removed: bool)
    requires Inv(s)
    ensures var z := Apply(s, RetryUpdate(b, attempts, refs, removed));
      && RefCount(z, b) == RefCount(s, b)
      && (z != s ==> IsDeleting(s.blobs, b))
      && (z != s && refs > 0 ==> IsReady(z.blobs, b))
  {
  }

  /** The retry with an older list does find references: the blob was tombstoned and registered again. */
  lemma RetryCanFindReference()
    ensures exists toList, toCount, b ::
      IsDeleting(Run(INIT, toList).blobs, b) && RefCount(Run(INIT, toList + toCount), b) > 0
  {
    hide Run, Apply, RefCount;
    var key, other := ArtifactKey("t", "RESULT", "t/a.json"), ArtifactKey("u", "RESULT", "u/a.json");
    var content := Content("x", "json", "gzip");
    var toList := [Register(key, content, 0), ClaimExpired(key, ArtifactReady), ClaimBlob(0)];
    var toCount := [TombstoneBlob(0), Register(other, content, 1)];
    RunThree(toList[0], toList[1], toList[2]);
    ClaimedWhileDeleting(key, content);
    var s := Run(INIT, toList);
    RunTwoMore(toList, toCount[0], toCount[1]);
    RegisteredAgain(s, other, content);
    assert IsDeleting(s.blobs, 0) && RefCount(Run(INIT, toList + toCount), 0) > 0;
  }

  lemma RunTwoMore(events: seq<Event>, e1: Event, e2: Event)
    ensures Run(INIT, events + [e1, e2]) == Apply(Apply(Run(INIT, events), e1), e2)
  {
    hide Apply;
    assert (events + [e1])[..|events|] == events;
    assert (events + [e1, e2])[..|events| + 1] == events + [e1];
  }

  lemma RegisteredAgain(s: State, key: ArtifactKey, content: Content)
    requires s.blobs == map[0 := Blob(content, Deleting, false, 0)] && key !in s.artifacts
    ensures RefCount(Apply(Apply(s, TombstoneBlob(0)), Register(key, content, 1)), 0) > 0
  {
    var s1 := Apply(s, TombstoneBlob(0));
    assert s1.blobs[0].content == content;
    var z := Apply(s1, Register(key, content, 1));
    assert key in ArtifactRefs(z, 0);
  }

  // Registration by key alone

  /** The registration of an output that has no descriptor: the row becomes ready and keeps its blob. */
  function RegisterByKey(s: State, key: ArtifactKey): State {
    if key !in s.artifacts then s.(artifacts := s.artifacts[key := Artifact(ArtifactReady, false, None)])
    else if s.artifacts[key].deletedAt then s
    else s.(artifacts := s.artifacts[key := s.artifacts[key].(status := ArtifactReady)])
  }

  /** It keeps references sound exactly when the row it makes ready has no blob or a ready one. */
  lemma RegisterByKeyKeepsIff(s: State, key: ArtifactKey)
    requires Inv(s)
    ensures Inv(RegisterByKey(s, key)) <==>
      (key in s.artifacts && !s.artifacts[key].deletedAt && s.artifacts[key].blob.Some? ==>
        IsReady(s.blobs, s.artifacts[key].blob.value))
  {
    var z := RegisterByKey(s, key);
    if key in s.artifacts && !s.artifacts[key].deletedAt && s.artifacts[key].blob.Some? &&
        !IsReady(s.blobs, s.artifacts[key].blob.value) {
      assert Live(z.artifacts[key]) && !IsReady(z.blobs, z.artifacts[key].blob.value);
      assert !ArtifactsReady(z.blobs, z.artifacts);
    }
  }

  /** A reachable state in which it does not: the artifact expired and its blob was already claimed. */
  lemma RegisterByKeyCanBreak()
    ensures exists events: seq<Event>, key: ArtifactKey :: !Inv(RegisterByKey(Run(INIT, events), key))
  {
    hide Inv;
    var key, content := ArtifactKey("t", "RESULT", "t/a.json"), Content("x", "json", "gzip");
    var e1, e2, e3 := Register(key, content, 0), ClaimExpired(key, ArtifactReady), ClaimBlob(0);
    var s3 := Apply(Apply(Apply(INIT, e1), e2), e3);
    ClaimedWhileDeleting(key, content);
    RunThree(e1, e2, e3);
    RunKeeps([e1, e2, e3]);
    RegisterByKeyKeepsIff(s3, key);
    assert !Inv(RegisterByKey(Run(INIT, [e1, e2, e3]), key));
  }

  lemma ClaimedWhileDeleting(key: ArtifactKey, content: Content)
    ensures var s := Apply(Apply(Apply(INIT, Register(key, content, 0)), ClaimExpired(key, ArtifactReady)),
      ClaimBlob(0));
      && s.artifacts == map[key := Artifact(ArtifactDeleting, false, Some(0))]
      && s.blobs == map[0 := Blob(content, Deleting, false, 0)]
  {
    var s1 := Apply(INIT, Register(key, content, 0));
    var s2 := Apply(s1, ClaimExpired(key, ArtifactReady));
    assert !HasContent(INIT.blobs, content);
    assert s1 == State(map[0 := Blob(content, Ready, false, 0)], map[key := Artifact(ArtifactReady, false, Some(0))],
      map[], map[]);
    assert s2 == s1.(artifacts := map[key := Artifact(ArtifactDeleting, false, Some(0))]);
    NoRefs(s2, 0);
  }

  lemma RunThree(e1: Event, e2: Event, e3: Event)
    ensures Run(INIT, [e1, e2, e3]) == Apply(Apply(Apply(INIT, e1), e2), e3)
  {
    hide Apply;
    assert [e1][..0] == [];
    assert Run(INIT, [e1]) == Apply(INIT, e1);
    assert [e1, e2][..1] == [e1];
    assert Run(INIT, [e1, e2]) == Apply(Apply(INIT, e1), e2);
    assert [e1, e2, e3][..2] == [e1, e2];
  }
}

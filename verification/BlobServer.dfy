/**
 The blob lifecycle as the servers run it: transactions that update the tables in place, and the loops
 built from them. The outcome of each object-store deletion is given from outside.
 */
module BlobServer {
  import opened Wrappers
  import opened BlobLifecycle

  lemma RunOneMore(s: State, events: seq<Event>, e: Event)
    ensures Run(s, events + [e]) == Apply(Run(s, events), e)
  {
    hide Apply;
    assert (events + [e])[..|events|] == events;
  }

  lemma {:induction false} RunFromKeeps(s: State, events: seq<Event>)
    requires Inv(s)
    ensures Inv(Run(s, events))
  {
    hide Inv, Apply;
    if events != [] {
      RunFromKeeps(s, events[..|events| - 1]);
      StepKeeps(Run(s, events[..|events| - 1]), events[|events| - 1]);
    }
  }

  /** The artifact, if it is being deleted, becomes a tombstone. */
  function Tombstoned(artifacts: map<ArtifactKey, Artifact>, key: ArtifactKey): map<ArtifactKey, Artifact> {
    if key in artifacts && artifacts[key].status == ArtifactDeleting
    then artifacts[key := Artifact(ArtifactDeleted, true, artifacts[key].blob)] else artifacts
  }

  lemma Completed(s: State, key: ArtifactKey, b: BlobId)
    ensures var z := Apply(s, CompleteArtifact(key));
      z == s.(artifacts := Tombstoned(s.artifacts, key)) && RefCount(z, b) == RefCount(s, b)
  {
    var z := Apply(s, CompleteArtifact(key));
    assert ArtifactRefs(z, b) == ArtifactRefs(s, b);
  }

  lemma Claimed(s: State, b: BlobId)
    ensures var z := Apply(s, ClaimBlob(b));
      && RefCount(z, b) == RefCount(s, b)
      && z == if IsReady(s.blobs, b) && RefCount(s, b) == 0
              then s.(blobs := s.blobs[b := s.blobs[b].(status := Deleting)]) else s
  {
    var z := Apply(s, ClaimBlob(b));
    assert ArtifactRefs(z, b) == ArtifactRefs(s, b);
  }

  lemma DeletionEnds(s: State, b: BlobId, attempts: nat)
    requires IsDeleting(s.blobs, b)
    ensures Apply(s, TombstoneBlob(b)) == s.(blobs := s.blobs[b := s.blobs[b].(status := Deleted, deletedAt := true)])
    ensures Apply(s, FailBlob(b, attempts)) == s.(blobs := s.blobs[b := s.blobs[b].(attempts := attempts + 1)])
  {
  }

  /** A blob in deletion as a retry read it. */
  datatype Listed = Listed(blob: BlobId, attempts: nat)

  ghost predicate Lists(due: seq<Listed>, b: BlobId) {
    exists x :: x in due && x.blob == b
  }

  /** What a retry with the given list makes of a row: a listed blob in deletion is tombstoned when its object
      was removed, and otherwise fails once more after the attempts listed. */
  ghost predicate Retried(due: seq<Listed>, b: BlobId, was: Blob, row: Blob, removed: bool) {
    if was.status != Deleting || !Lists(due, b) then row == was
    else if removed then row == was.(status := Deleted, deletedAt := true)
    else row.attempts > 0 && Listed(b, row.attempts - 1) in due && row == was.(attempts := row.attempts)
  }

  lemma RetriedNext(due: seq<Listed>, x: Listed, b: BlobId, was: Blob, row: Blob, next: Blob, removed: bool)
    requires Retried(due, b, was, row, removed)
    requires next ==
      if x.blob != b || row.status != Deleting then row
      else if removed then row.(status := Deleted, deletedAt := true)
      else row.(attempts := x.attempts + 1)
    ensures Retried(due + [x], b, was, next, removed)
  {
    assert x in due + [x];
    assert forall y :: y in due ==> y in due + [x];
  }

  lemma RetriedNone(blobs: map<BlobId, Blob>, removed: map<BlobId, bool>)
    ensures forall b :: b in blobs ==> Retried([], b, blobs[b], blobs[b], b in removed && removed[b])
  {
  }

  function AfterRetry(s: State, x: Listed, removed: bool): State {
    if !IsDeleting(s.blobs, x.blob) then s
    else if removed then s.(blobs := s.blobs[x.blob := s.blobs[x.blob].(status := Deleted, deletedAt := true)])
    else s.(blobs := s.blobs[x.blob := s.blobs[x.blob].(attempts := x.attempts + 1)])
  }

  /** A blob in deletion has no reference, so counting first changes nothing as long as nobody else acts. */
  lemma RetryStep(s: State, x: Listed, removed: bool)
    requires Inv(s)
    ensures Apply(s, RetryUpdate(x.blob, x.attempts, RefCount(s, x.blob), removed)) == AfterRetry(s, x, removed)
  {
    NoRefs(s, x.blob);
  }

  lemma NoSymbolsLeft(s: State, z: State, b: BlobId)
    requires RefCount(s, b) == 0 && z.symbols == s.symbols
    ensures Apply(z, DropSymbols(b)) == z
  {
    NoRefs(s, b);
  }

  class Tables {
    var blobs: map<BlobId, Blob>
    var artifacts: map<ArtifactKey, Artifact>
    var symbols: map<string, Option<BlobId>>
    var tasks: map<Tid, Task>

    function Db(): State
      reads this
    {
      State(blobs, artifacts, symbols, tasks)
    }

    constructor ()
      ensures Db() == INIT
    {
      blobs, artifacts, symbols, tasks := map[], map[], map[], map[];
    }

    /** The blob row with a given content, if there is one. */
    method FindByContent(content: Content) returns (found: Option<BlobId>)
      requires BlobsOk(blobs)
      ensures found.Some? <==> HasContent(blobs, content)
      ensures found.Some? ==> found.value == IdOf(blobs, content)
    {
      var rest := blobs.Keys;
      while rest != {}
        invariant rest <= blobs.Keys
        invariant forall b :: b in blobs && b !in rest ==> blobs[b].content != content
      {
        var b :| b in rest;
        if blobs[b].content == content {
          return Some(b);
        }
        rest := rest - {b};
      }
      found := None;
    }

    /** Registers an analysis output: the blob of its content and the artifact that refers to it. */
    method RegisterDescriptor(key: ArtifactKey, content: Content, newId: BlobId) returns (retry: bool, registered: bool)
      requires Inv(Db()) && newId !in blobs
      modifies this
      ensures Db() == Apply(old(Db()), Register(key, content, newId)) && Inv(Db())
      ensures retry ==> Db() == old(Db())
      ensures registered <==> !retry && !(key in old(artifacts) && old(artifacts)[key].deletedAt)
    {
      RegisterKeeps(Db(), key, content, newId);
      var found := FindByContent(content);
      var b := newId;
      retry, registered := false, false;
      if found.Some? {
        b := found.value;
        if blobs[b].status == Deleting || blobs[b].status == Uploading {
          retry := true;
          return;
        }
        if blobs[b].status != Ready {
          blobs := blobs[b := Blob(content, Ready, false, 0)];
        }
      } else {
        blobs := blobs[b := Blob(content, Ready, false, 0)];
      }
      if !(key in artifacts && artifacts[key].deletedAt) {
        artifacts := artifacts[key := Artifact(ArtifactReady, false, Some(b))];
        registered := true;
      }
    }

    /** The cleaner's claim; expiry cleaning respects pins, deleting a task does not. */
    method ClaimArtifact(key: ArtifactKey, seen: ArtifactStatus) returns (claimed: bool)
      modifies this`artifacts
      ensures Db() == Apply(old(Db()), ClaimExpired(key, seen))
      ensures claimed <==>
        && key in old(artifacts) && old(artifacts)[key].status == seen && !old(artifacts)[key].deletedAt
        && (key.task == "" || key.task !in tasks || (!tasks[key.task].deleted && !tasks[key.task].pinned))
      ensures artifacts ==
        if claimed then old(artifacts)[key := old(artifacts)[key].(status := ArtifactDeleting)] else old(artifacts)
    {
      if key.task != "" && key.task in tasks && (tasks[key.task].deleted || tasks[key.task].pinned) {
        return false;
      }
      claimed := key in artifacts && artifacts[key].status == seen && !artifacts[key].deletedAt;
      if claimed {
        artifacts := artifacts[key := artifacts[key].(status := ArtifactDeleting)];
      }
    }

    ghost predicate BeingDeleted(tid: Tid)
      reads this
    {
      exists k :: k in artifacts && k.task == tid && artifacts[k].status == ArtifactDeleting && !artifacts[k].deletedAt
    }

    method PinTask(tid: Tid) returns (ok: bool)
      modifies this`tasks
      ensures Db() == Apply(old(Db()), Pin(tid))
      ensures ok <==> tid in old(tasks) && !old(tasks)[tid].deleted && !BeingDeleted(tid)
      ensures tasks == if ok then old(tasks)[tid := Task(true, false)] else old(tasks)
    {
      ok := tid in tasks && !tasks[tid].deleted && !AnyDeleting(Db(), tid);
      if ok {
        tasks := tasks[tid := tasks[tid].(pinned := true)];
      }
    }

    method CompleteDeletion(key: ArtifactKey)
      modifies this`artifacts
      ensures Db() == Apply(old(Db()), CompleteArtifact(key))
      ensures artifacts == Tombstoned(old(artifacts), key)
    {
      if key in artifacts && artifacts[key].status == ArtifactDeleting {
        artifacts := artifacts[key := artifacts[key].(status := ArtifactDeleted, deletedAt := true)];
      }
    }

    /** Locks the blob, counts its references and claims it if there are none. */
    method ClaimUnreferencedBlob(b: BlobId) returns (claimed: bool)
      modifies this`blobs
      ensures Db() == Apply(old(Db()), ClaimBlob(b))
      ensures claimed <==> old(IsReady(blobs, b) && RefCount(Db(), b) == 0)
      ensures claimed ==> blobs == old(blobs)[b := old(blobs)[b].(status := Deleting)]
    {
      claimed := IsReady(blobs, b) && RefCount(Db(), b) == 0;
      if claimed {
        blobs := blobs[b := blobs[b].(status := Deleting)];
      }
    }

    method SetBlobStatus(b: BlobId, e: Event)
      requires e == TombstoneBlob(b) || e == BackToReady(b) || (e.FailBlob? && e.blob == b)
      modifies this`blobs
      ensures Db() == Apply(old(Db()), e)
    {
      if b in blobs && blobs[b].status == Deleting {
        match e {
          case TombstoneBlob(_) => blobs := blobs[b := blobs[b].(status := Deleted, deletedAt := true)];
          case BackToReady(_) => blobs := blobs[b := blobs[b].(status := Ready, attempts := 0)];
          case FailBlob(_, n) => blobs := blobs[b := blobs[b].(attempts := n + 1)];
        }
      }
    }

    method DropSymbolRows(b: BlobId)
      modifies this`symbols
      ensures Db() == Apply(old(Db()), DropSymbols(b))
    {
      symbols := map k | k in symbols && symbols[k] != Some(b) :: symbols[k];
    }

    /** After the object is gone, or could not be removed. */
    method FinishBlob(b: BlobId, seenAttempts: nat, removed: bool, ghost s: State, ghost before: seq<Event>)
      returns (ghost events: seq<Event>)
      requires Db() == Run(s, before)
      requires RefCount(Db(), b) == 0 && IsDeleting(blobs, b)
      modifies this
      ensures Db() == Run(s, events) && before <= events
      ensures artifacts == old(artifacts) && symbols == old(symbols) && tasks == old(tasks)
      ensures blobs == old(blobs)[b :=
        if removed then old(blobs)[b].(status := Deleted, deletedAt := true)
        else old(blobs)[b].(attempts := seenAttempts + 1)]
    {
      hide Run, Apply, RefCount;
      ghost var was := Db();
      DeletionEnds(was, b, seenAttempts);
      if removed {
        SetBlobStatus(b, TombstoneBlob(b));
        RunOneMore(s, before, TombstoneBlob(b));
        NoSymbolsLeft(was, Db(), b);
        DropSymbolRows(b);
        RunOneMore(s, before + [TombstoneBlob(b)], DropSymbols(b));
        events := before + [TombstoneBlob(b)] + [DropSymbols(b)];
      } else {
        SetBlobStatus(b, FailBlob(b, seenAttempts));
        RunOneMore(s, before, FailBlob(b, seenAttempts));
        events := before + [FailBlob(b, seenAttempts)];
      }
    }

    /** Deletes a claimed artifact that refers to a blob: the tombstone first, then the blob if that was its
        last reference. */
    method ProcessClaimed(key: ArtifactKey, b: BlobId, removed: bool) returns (ghost events: seq<Event>)
      requires Inv(Db())
      modifies this
      ensures Db() == Run(old(Db()), events) && Inv(Db())
      ensures artifacts == Tombstoned(old(artifacts), key) && symbols == old(symbols) && tasks == old(tasks)
      ensures blobs ==
        if old(IsReady(blobs, b) && RefCount(Db(), b) == 0) then
          old(blobs)[b := Blob(old(blobs)[b].content, if removed then Deleted else Deleting, removed,
                               if removed then old(blobs)[b].attempts else old(blobs)[b].attempts + 1)]
        else old(blobs)
    {
      hide Run, Apply, Inv, RefCount;
      ghost var s := Db();
      RunNothing(s);
      CompleteDeletion(key);
      Completed(s, key, b);
      RunOneMore(s, [], CompleteArtifact(key));
      events := [] + [CompleteArtifact(key)];
      ghost var done := Db();
      var attempts := if b in blobs then blobs[b].attempts else 0;
      var claimed := ClaimUnreferencedBlob(b);
      Claimed(done, b);
      RunOneMore(s, events, ClaimBlob(b));
      events := events + [ClaimBlob(b)];
      if claimed {
        events := FinishBlob(b, attempts, removed, s, events);
      }
      RunFromKeeps(s, events);
    }

    /** The blobs in deletion, with the number of attempts already made. */
    method ListDeleting() returns (due: seq<Listed>)
      ensures forall x :: x in due <==> IsDeleting(blobs, x.blob) && x.attempts == blobs[x.blob].attempts
    {
      due := [];
      var rest := blobs.Keys;
      while rest != {}
        invariant rest <= blobs.Keys
        invariant forall x :: x in due <==>
          IsDeleting(blobs, x.blob) && x.blob !in rest && x.attempts == blobs[x.blob].attempts
      {
        var b :| b in rest;
        rest := rest - {b};
        if blobs[b].status == Deleting {
          due := due + [Listed(b, blobs[b].attempts)];
        }
      }
    }

    /** Counts the references of one listed blob and makes the guarded update, whatever the blob is by now. */
    method RetryOne(x: Listed, removed: bool, ghost s: State, ghost before: seq<Event>)
      returns (ghost events: seq<Event>)
      requires Inv(Db()) && Db() == Run(s, before)
      modifies this
      ensures Db() == Run(s, events)
      ensures Db() == AfterRetry(old(Db()), x, removed)
    {
      hide Run, Apply, Inv;
      ghost var was := Db();
      var e := RetryUpdate(x.blob, x.attempts, RefCount(Db(), x.blob), removed);
      RetryStep(was, x, removed);
      SetBlobStatus(x.blob, e);
      RunOneMore(s, before, e);
      events := before + [e];
      if e.TombstoneBlob? {
        NoSymbolsLeft(was, Db(), x.blob);
        DropSymbolRows(x.blob);
        RunOneMore(s, events, DropSymbols(x.blob));
        events := events + [DropSymbols(x.blob)];
      }
    }

    /** Goes through a list made earlier: what it says may no longer hold. Each blob's references are counted,
        then its row is updated if it is still, or again, in deletion; no other row changes. */
    method RetryDeletions(due: seq<Listed>, removed: map<BlobId, bool>) returns (ghost events: seq<Event>)
      requires Inv(Db())
      modifies this
      ensures Db() == Run(old(Db()), events) && Inv(Db())
      ensures artifacts == old(artifacts) && symbols == old(symbols) && tasks == old(tasks)
      ensures blobs.Keys == old(blobs).Keys
      ensures forall b :: b in blobs ==> Retried(due, b, old(blobs)[b], blobs[b], b in removed && removed[b])
    {
      hide Run, Apply, Inv, Retried;
      ghost var s := Db();
      events := [];
      RunNothing(s);
      RetriedNone(s.blobs, removed);
      for i := 0 to |due|
        invariant Db() == Run(s, events) && Inv(Db())
        invariant artifacts == s.artifacts && symbols == s.symbols && tasks == s.tasks && blobs.Keys == s.blobs.Keys
        invariant forall b :: b in blobs ==> Retried(due[..i], b, s.blobs[b], blobs[b], b in removed && removed[b])
      {
        ghost var was, sofar := Db(), due[..i];
        events := RetryOne(due[i], due[i].blob in removed && removed[due[i].blob], s, events);
        RunFromKeeps(s, events);
        assert due[..i + 1] == sofar + [due[i]];
        forall b | b in blobs
          ensures Retried(due[..i + 1], b, s.blobs[b], blobs[b], b in removed && removed[b])
        {
          RetriedNext(sofar, due[i], b, s.blobs[b], was.blobs[b], blobs[b], b in removed && removed[b]);
        }
      }
      assert due[..|due|] == due;
    }
  }

  lemma RunNothing(s: State)
    ensures Run(s, []) == s
  {
  }
}

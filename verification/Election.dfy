/**
 Which analysis of a task is the active one, when several generations finish in any order, and what becomes
 of the results of the others.
 */
module Election {
  import opened Text
  import opened Wrappers

  type JobId = nat
  type Pid = nat

  datatype Trigger = Initial | Manual

  /** One finished analysis; attemptId is the collection attempt it analysed. */
  datatype Generation = Generation(job: JobId, attemptId: nat, trigger: Trigger)

  datatype Kind = Manifest | Result | Log | Raw | Intermediate | OtherKind
  datatype Retention = Unclassified | ManifestClass | ResultSuperseded | ResultClass | Diagnostic | RawPortable
    | RawLarge | IntermediateClass
  datatype TaskStatus = Created | Running | Done | Failed | Uploading | Canceled | NoTask

  /** An artifact row of the task is unique in these columns. */
  datatype ArtifactKey = ArtifactKey(kind: Kind, objectKey: string)
  datatype Artifact = Artifact(job: JobId, ready: bool, deleted: bool, retention: Retention)

  /** What a reconciling server has read of an artifact: whether its job was superseded. */
  datatype Read = Read(artifact: ArtifactKey, superseded: bool)

  /** history lists the generations in the order they were finalised; bare holds the jobs that were completed
      without an election, because the analyser exited with success before it; seen is the memory of the
      reconciling servers. */
  datatype State = State(
    active: Option<JobId>,
    history: seq<Generation>,
    bare: set<JobId>,
    superseded: set<JobId>,
    artifacts: map<ArtifactKey, Artifact>,
    seen: map<Pid, Read>)

  const INIT: State := State(None, [], {}, {}, map[], map[])

  datatype Event =
    | Finalize(gen: Generation, outputs: seq<ArtifactKey>)
    | CompleteBare(job: JobId)
    | ReconcileRead(pid: Pid, artifact: ArtifactKey, jobsLoaded: bool)
    | ReconcileWrite(pid: Pid, taskStatus: TaskStatus)
    | LeaveReady(artifact: ArtifactKey)
    | Tombstone(artifact: ArtifactKey)

  predicate Finished(history: seq<Generation>, job: JobId) {
    exists i | 0 <= i < |history| :: history[i].job == job
  }

  /** The job has succeeded, with an election or without. */
  predicate Completed(s: State, job: JobId) {
    Finished(s.history, job) || job in s.bare
  }

  function AttemptOf(history: seq<Generation>, job: JobId): nat {
    if history == [] then 0
    else if history[|history| - 1].job == job then history[|history| - 1].attemptId
    else AttemptOf(history[..|history| - 1], job)
  }

  predicate Demotable(kind: Kind) {
    kind == Result || kind == Intermediate
  }

  /** The results of a superseded job are marked for early removal; its manifest is left alone. */
  function Demote(artifacts: map<ArtifactKey, Artifact>, job: JobId): map<ArtifactKey, Artifact> {
    map a | a in artifacts ::
      if artifacts[a].job == job && Demotable(a.kind) && artifacts[a].ready
      then artifacts[a].(retention := ResultSuperseded) else artifacts[a]
  }

  /** An output whose row exists takes the row over: it belongs to the new job and is ready again, with the
      retention it had; a tombstone is left alone. */
  function AddOutput(artifacts: map<ArtifactKey, Artifact>, job: JobId, o: ArtifactKey): map<ArtifactKey, Artifact> {
    if o !in artifacts then artifacts[o := Artifact(job, true, false, Unclassified)]
    else if artifacts[o].deleted then artifacts
    else artifacts[o := artifacts[o].(job := job, ready := true)]
  }

  function AddOutputs(artifacts: map<ArtifactKey, Artifact>, job: JobId, outputs: seq<ArtifactKey>)
    : map<ArtifactKey, Artifact>
  {
    if outputs == [] then artifacts
    else AddOutput(AddOutputs(artifacts, job, outputs[..|outputs| - 1]), job, outputs[|outputs| - 1])
  }

  /** A manual analysis always wins; an automatic one unless the active one analysed a later attempt. */
  predicate ShouldSwitch(s: State, gen: Generation) {
    gen.trigger == Manual || s.active.None? || AttemptOf(s.history, s.active.value) <= gen.attemptId
  }

  function Switch(s: State, gen: Generation): State {
    if ShouldSwitch(s, gen) then
      match s.active
      case None => s.(active := Some(gen.job), history := s.history + [gen])
      case Some(prev) => s.(active := Some(gen.job), history := s.history + [gen], superseded := s.superseded + {prev},
                            artifacts := Demote(s.artifacts, prev))
    else
      s.(history := s.history + [gen], superseded := s.superseded + {gen.job},
         artifacts := Demote(s.artifacts, gen.job))
  }

  predicate HasSuffix(key: string, suffix: string) {
    |suffix| <= |key| && forall i :: 0 <= i < |suffix| ==> LowerChar(key[|key| - |suffix| + i]) == suffix[i]
  }

  function Classify(kind: Kind, objectKey: string, taskStatus: TaskStatus, superseded: bool): Retention {
    if kind == Manifest then ManifestClass
    else if superseded && Demotable(kind) then ResultSuperseded
    else if kind == Result then ResultClass
    else if (taskStatus == Failed || taskStatus == Canceled) && (kind == Raw || kind == Intermediate || kind == Log)
      then Diagnostic
    else if kind == Log then Diagnostic
    else if kind == Raw then
      if HasSuffix(objectKey, ".pb.gz") || HasSuffix(objectKey, ".collapsed") then RawPortable else RawLarge
    else if kind == Intermediate then IntermediateClass
    else RawLarge
  }

  /** Reads the job of an artifact; when the jobs cannot be loaded, none counts as superseded. */
  function ReadStep(s: State, pid: Pid, a: ArtifactKey, jobsLoaded: bool): State {
    if a !in s.artifacts || s.artifacts[a].deleted then s.(seen := s.seen - {pid})
    else s.(seen := s.seen[pid := Read(a, jobsLoaded && s.artifacts[a].job in s.superseded)])
  }

  /** Writes the class computed from what was read, unless the artifact was deleted meanwhile. */
  function WriteStep(s: State, pid: Pid, taskStatus: TaskStatus): State {
    if pid !in s.seen then s
    else
      var r := s.seen[pid];
      if r.artifact !in s.artifacts || s.artifacts[r.artifact].deleted then s
      else
        var category := Classify(r.artifact.kind, r.artifact.objectKey, taskStatus, r.superseded);
        s.(artifacts := s.artifacts[r.artifact := s.artifacts[r.artifact].(retention := category)])
  }

  /** A job finishes once: a second success is refused by its lease. */
  function Apply(s: State, e: Event): State {
    match e
    case Finalize(gen, outputs) =>
      if Completed(s, gen.job) then s
      else Switch(s.(artifacts := AddOutputs(s.artifacts, gen.job, outputs)), gen)
    case CompleteBare(job) => if Completed(s, job) then s else s.(bare := s.bare + {job})
    case ReconcileRead(pid, a, jobsLoaded) => ReadStep(s, pid, a, jobsLoaded)
    case ReconcileWrite(pid, taskStatus) => WriteStep(s, pid, taskStatus)
    case LeaveReady(a) =>
      if a in s.artifacts then s.(artifacts := s.artifacts[a := s.artifacts[a].(ready := false)]) else s
    case Tombstone(a) =>
      if a in s.artifacts then
        s.(artifacts := s.artifacts[a := s.artifacts[a].(ready := false, deleted := true)])
      else s
  }

  function Run(events: seq<Event>): State {
    if events == [] then INIT else Apply(Run(events[..|events| - 1]), events[|events| - 1])
  }

  // The invariant

  function LastManual(history: seq<Generation>): nat {
    if history == [] then 0
    else if history[|history| - 1].trigger == Manual then |history| - 1
    else LastManual(history[..|history| - 1])
  }

  /** The generation at index i beats all since the last manual one, and those after it strictly. */
  ghost predicate Wins(history: seq<Generation>, i: nat) {
    && i < |history| && LastManual(history) <= i
    && (forall j :: LastManual(history) <= j < |history| ==> history[j].attemptId <= history[i].attemptId)
    && (forall j :: i < j < |history| ==> history[j].attemptId < history[i].attemptId)
  }

  ghost predicate ActiveWins(active: Option<JobId>, history: seq<Generation>) {
    && (active.None? <==> history == [])
    && (active.Some? ==> exists i :: 0 <= i < |history| && history[i].job == active.value && Wins(history, i))
  }

  ghost predicate OnceEach(history: seq<Generation>) {
    forall i, j :: 0 <= i < j < |history| ==> history[i].job != history[j].job
  }

  ghost predicate OthersSuperseded(s: State) {
    forall job :: job in s.superseded <==> Finished(s.history, job) && s.active != Some(job)
  }

  ghost predicate Inv(s: State) {
    && OnceEach(s.history) && ActiveWins(s.active, s.history) && OthersSuperseded(s)
    && (forall job :: job in s.bare ==> !Finished(s.history, job))
  }

  lemma {:induction false} AttemptAt(history: seq<Generation>, i: nat)
    requires OnceEach(history) && i < |history|
    ensures AttemptOf(history, history[i].job) == history[i].attemptId
  {
    if i < |history| - 1 {
      AttemptAt(history[..|history| - 1], i);
    }
  }

  lemma {:induction false} LastManualBefore(history: seq<Generation>)
    ensures history != [] ==> LastManual(history) < |history|
  {
    if history != [] {
      LastManualBefore(history[..|history| - 1]);
    }
  }

  lemma WinnerStays(history: seq<Generation>, gen: Generation, i: nat)
    requires Wins(history, i) && gen.trigger == Initial && gen.attemptId < history[i].attemptId
    ensures Wins(history + [gen], i)
  {
    assert (history + [gen])[..|history|] == history;
  }

  lemma NewWinner(history: seq<Generation>, gen: Generation)
    requires gen.trigger == Manual || history == [] ||
      exists i :: 0 <= i < |history| && Wins(history, i) && history[i].attemptId <= gen.attemptId
    ensures Wins(history + [gen], |history|)
  {
    assert (history + [gen])[..|history|] == history;
  }

  lemma FinishedMore(history: seq<Generation>, gen: Generation, job: JobId)
    ensures Finished(history + [gen], job) <==> Finished(history, job) || gen.job == job
  {
    var z := history + [gen];
    if Finished(history, job) {
      var i :| 0 <= i < |history| && history[i].job == job;
      assert z[i].job == job;
    }
    assert z[|history|].job == gen.job;
  }

  lemma OnceMore(history: seq<Generation>, gen: Generation)
    requires OnceEach(history) && !Finished(history, gen.job)
    ensures OnceEach(history + [gen])
  {
    forall i | 0 <= i < |history| ensures history[i].job != gen.job { }
  }

  lemma SwitchElects(s: State, gen: Generation)
    requires Inv(s) && !Finished(s.history, gen.job)
    ensures OnceEach(Switch(s, gen).history) && ActiveWins(Switch(s, gen).active, Switch(s, gen).history)
  {
    hide Wins, Demote, LastManual, OnceEach, OthersSuperseded, AttemptOf, Finished;
    var z := Switch(s, gen);
    OnceMore(s.history, gen);
    if s.active.Some? {
      var i :| 0 <= i < |s.history| && s.history[i].job == s.active.value && Wins(s.history, i);
      AttemptAt(s.history, i);
      if ShouldSwitch(s, gen) {
        NewWinner(s.history, gen);
        assert z.history[|s.history|].job == z.active.value;
      } else {
        WinnerStays(s.history, gen, i);
        assert z.history[i].job == z.active.value;
      }
    } else {
      NewWinner(s.history, gen);
      assert z.history[|s.history|].job == z.active.value;
    }
  }

  lemma SwitchSupersedes(s: State, gen: Generation)
    requires Inv(s) && !Finished(s.history, gen.job)
    ensures OthersSuperseded(Switch(s, gen))
  {
    var z := Switch(s, gen);
    forall job ensures job in z.superseded <==> Finished(z.history, job) && z.active != Some(job) {
      FinishedMore(s.history, gen, job);
    }
  }

  lemma StepKeeps(s: State, e: Event)
    requires Inv(s)
    ensures Inv(Apply(s, e))
  {
    match e {
      case Finalize(gen, outputs) =>
        if !Completed(s, gen.job) {
          var t := s.(artifacts := AddOutputs(s.artifacts, gen.job, outputs));
          SwitchElects(t, gen);
          SwitchSupersedes(t, gen);
          forall job | job in s.bare ensures !Finished(s.history + [gen], job) {
            FinishedMore(s.history, gen, job);
          }
        }
      case _ =>
    }
  }

  lemma {:induction false} RunKeeps(events: seq<Event>)
    ensures Inv(Run(events))
  {
    if events != [] {
      RunKeeps(events[..|events| - 1]);
      StepKeeps(Run(events[..|events| - 1]), events[|events| - 1]);
    }
  }

  /** Names end alike when their last characters agree, whatever their case. */
  ghost predicate EndsIn(name: string, suffix: string) {
    |suffix| <= |name| && Lowered(name[|name| - |suffix|..]) == suffix
  }

  function Lowered(s: string): string {
    seq(|s|, i requires 0 <= i < |s| => LowerChar(s[i]))
  }

  /** How long an artifact is kept, class by class. */
  lemma ClassesMean(kind: Kind, objectKey: string, taskStatus: TaskStatus, superseded: bool)
    ensures var class_ := Classify(kind, objectKey, taskStatus, superseded);
      var broken := taskStatus == Failed || taskStatus == Canceled;
      && (class_ == ManifestClass <==> kind == Manifest)
      && (class_ == ResultSuperseded <==> superseded && (kind == Result || kind == Intermediate))
      && (class_ == ResultClass <==> !superseded && kind == Result)
      && (class_ == IntermediateClass <==> !superseded && kind == Intermediate && !broken)
      && (class_ == Diagnostic <==>
            kind == Log || (broken && (kind == Raw || (kind == Intermediate && !superseded))))
      && (class_ == RawPortable <==>
            kind == Raw && !broken && (EndsIn(objectKey, ".pb.gz") || EndsIn(objectKey, ".collapsed")))
      && class_ != Unclassified
  {
    SuffixMeans(objectKey, ".pb.gz");
    SuffixMeans(objectKey, ".collapsed");
  }

  lemma SuffixMeans(name: string, suffix: string)
    ensures HasSuffix(name, suffix) <==> EndsIn(name, suffix)
  {
    if |suffix| <= |name| {
      var end := Lowered(name[|name| - |suffix|..]);
      assert |end| == |suffix| && forall i :: 0 <= i < |suffix| ==> end[i] == LowerChar(name[|name| - |suffix| + i]);
      if HasSuffix(name, suffix) {
        assert forall i :: 0 <= i < |suffix| ==> end[i] == suffix[i];
      }
    }
  }

  // What holds after any finishing order

  /** The active job is the one completed by an election that is not superseded; a job completed without one
      is neither. */
  lemma ActiveIsTheOnlyOne(events: seq<Event>, job: JobId)
    ensures var s := Run(events);
      && (s.active == Some(job) <==> Completed(s, job) && job !in s.superseded && job !in s.bare)
      && (job in s.bare ==> s.active != Some(job) && job !in s.superseded)
  {
    RunKeeps(events);
    var s := Run(events);
    if s.active == Some(job) {
      var i :| 0 <= i < |s.history| && s.history[i].job == job && Wins(s.history, i);
    }
  }

  /** It analysed the latest attempt among those finished since the last manual analysis, that one included;
      of several on the same attempt it is the last to have finished. */
  lemma ActiveIsLatestAttempt(events: seq<Event>)
    ensures var s := Run(events);
      s.history != [] ==>
        s.active.Some? && exists i :: 0 <= i < |s.history| && s.history[i].job == s.active.value && Wins(s.history, i)
  {
    RunKeeps(events);
  }

  /** Without manual analyses no finished generation analysed a later attempt than the active one. */
  lemma LateAttemptsNeverDisplace(events: seq<Event>, job: JobId)
    requires var s := Run(events); Finished(s.history, job) && forall g :: g in s.history ==> g.trigger == Initial
    ensures var s := Run(events); s.active.Some? && AttemptOf(s.history, job) <= AttemptOf(s.history, s.active.value)
  {
    RunKeeps(events);
    var s := Run(events);
    var i :| 0 <= i < |s.history| && s.history[i].job == s.active.value && Wins(s.history, i);
    var j :| 0 <= j < |s.history| && s.history[j].job == job;
    NoManual(s.history);
    AttemptAt(s.history, i);
    AttemptAt(s.history, j);
  }

  lemma {:induction false} NoManual(history: seq<Generation>)
    requires forall g :: g in history ==> g.trigger == Initial
    ensures LastManual(history) == 0
  {
    if history != [] {
      assert history[|history| - 1] in history;
      NoManual(history[..|history| - 1]);
    }
  }

  /** A manual analysis is active as soon as it has finished. */
  lemma ManualIsActive(events: seq<Event>, gen: Generation, outputs: seq<ArtifactKey>)
    requires gen.trigger == Manual && !Completed(Run(events), gen.job)
    ensures Run(events + [Finalize(gen, outputs)]).active == Some(gen.job)
  {
    assert (events + [Finalize(gen, outputs)])[..|events|] == events;
  }

  // The mark of superseded results

  /** A ready result of a superseded job, which is to be removed early. */
  predicate ToBeMarked(s: State, a: ArtifactKey) {
    a in s.artifacts && s.artifacts[a].ready && Demotable(a.kind) && s.artifacts[a].job in s.superseded
  }

  ghost predicate AllMarked(s: State) {
    forall a :: ToBeMarked(s, a) ==> s.artifacts[a].retention == ResultSuperseded
  }

  /** The server is about to write for an artifact whose job is superseded by now, but was not, or could not be
      seen to be, when it was read. */
  predicate Straddles(s: State, pid: Pid) {
    && pid in s.seen && !s.seen[pid].superseded
    && ToBeMarked(s, s.seen[pid].artifact) && !s.artifacts[s.seen[pid].artifact].deleted
  }

  lemma {:induction false} OutputsOwned(artifacts: map<ArtifactKey, Artifact>, job: JobId, outputs: seq<ArtifactKey>)
    ensures forall a :: a in artifacts ==> a in AddOutputs(artifacts, job, outputs)
    ensures forall a :: a in AddOutputs(artifacts, job, outputs) ==>
      var z := AddOutputs(artifacts, job, outputs)[a];
      z.job == job || (a in artifacts && z == artifacts[a])
  {
    if outputs != [] {
      OutputsOwned(artifacts, job, outputs[..|outputs| - 1]);
    }
  }

  lemma FinalizeMarks(s: State, gen: Generation, outputs: seq<ArtifactKey>)
    requires Inv(s) && AllMarked(s) && !Completed(s, gen.job)
    ensures AllMarked(Apply(s, Finalize(gen, outputs)))
  {
    hide Inv, AddOutputs;
    OutputsOwned(s.artifacts, gen.job, outputs);
    assert gen.job !in s.superseded by { Unfinished(s, gen.job); }
    var t := s.(artifacts := AddOutputs(s.artifacts, gen.job, outputs));
    assert AllMarked(t);
    DemoteMarks(t, if t.active.Some? && ShouldSwitch(t, gen) then t.active.value else gen.job);
  }

  lemma Unfinished(s: State, job: JobId)
    requires Inv(s) && !Finished(s.history, job)
    ensures job !in s.superseded
  {
  }

  /** A finalisation touches no other rows: what is not an output stays as it is, unless it is a ready result of the
      job superseded by it. */
  lemma FinalizeLeavesOthers(s: State, gen: Generation, outputs: seq<ArtifactKey>, a: ArtifactKey)
    requires Inv(s) && a in s.artifacts && a !in outputs
    ensures var z := Apply(s, Finalize(gen, outputs)); var job := s.artifacts[a].job;
      && a in z.artifacts
      && z.artifacts[a] == if job in z.superseded && job !in s.superseded && s.artifacts[a].ready && Demotable(a.kind)
                           then s.artifacts[a].(retention := ResultSuperseded) else s.artifacts[a]
  {
    OutputsOnly(s.artifacts, gen.job, outputs, a);
    if s.active.Some? {
      ActiveNotSuperseded(s);
    }
    if !Completed(s, gen.job) {
      Unfinished(s, gen.job);
    }
  }

  lemma ActiveNotSuperseded(s: State)
    requires Inv(s) && s.active.Some?
    ensures s.active.value !in s.superseded
  {
  }

  lemma {:induction false} OutputsOnly(artifacts: map<ArtifactKey, Artifact>, job: JobId, outputs: seq<ArtifactKey>,
                                       a: ArtifactKey)
    requires a in artifacts && a !in outputs
    ensures a in AddOutputs(artifacts, job, outputs) && AddOutputs(artifacts, job, outputs)[a] == artifacts[a]
  {
    if outputs != [] {
      OutputsOnly(artifacts, job, outputs[..|outputs| - 1], a);
    }
  }

  lemma DemoteMarks(s: State, job: JobId)
    requires AllMarked(s)
    ensures AllMarked(s.(artifacts := Demote(s.artifacts, job), superseded := s.superseded + {job}))
  {
  }

  /** A step loses a mark exactly when it writes across a superseding. */
  lemma StepMarksIff(s: State, e: Event)
    requires Inv(s) && AllMarked(s)
    ensures AllMarked(Apply(s, e)) <==> !(e.ReconcileWrite? && Straddles(s, e.pid))
  {
    hide Inv;
    var z := Apply(s, e);
    match e {
      case Finalize(gen, outputs) =>
        if !Completed(s, gen.job) {
          FinalizeMarks(s, gen, outputs);
        }
      case ReconcileWrite(pid, taskStatus) =>
        if Straddles(s, pid) {
          assert ToBeMarked(z, s.seen[pid].artifact);
        }
      case _ =>
        assert forall a :: ToBeMarked(z, a) ==> ToBeMarked(s, a);
    }
  }

  /** In every run: superseded results are marked all along exactly when no server ever writes a class across
      the superseding. */
  lemma {:induction false} SupersededStaysMarkedIff(events: seq<Event>)
    ensures (forall k :: 0 <= k <= |events| ==> AllMarked(Run(events[..k]))) <==>
      (forall k :: 0 <= k < |events| && events[k].ReconcileWrite? ==> !Straddles(Run(events[..k]), events[k].pid))
  {
    hide Inv, Apply, AllMarked, Straddles;
    if events == [] {
      assert events[..0] == events;
      NothingToMark();
    } else {
      var n := |events| - 1;
      var init := events[..n];
      assert forall k :: 0 <= k <= n ==> init[..k] == events[..k];
      SupersededStaysMarkedIff(init);
      assert events[..n + 1] == events && init[..n] == init;
      if AllMarked(Run(init)) {
        RunKeeps(init);
        StepMarksIff(Run(init), events[n]);
      }
    }
  }

  /** Every write directly follows its own read of the jobs. */
  ghost predicate ReconciledAtOnce(events: seq<Event>) {
    forall k :: 0 <= k < |events| && events[k].ReconcileWrite? ==>
      k > 0 && events[k - 1].ReconcileRead? && events[k - 1].pid == events[k].pid && events[k - 1].jobsLoaded
  }

  /** If servers reconciled in one step, superseded results would stay marked in every run. */
  lemma SupersededStaysMarked(events: seq<Event>)
    requires ReconciledAtOnce(events)
    ensures AllMarked(Run(events))
  {
    forall k | 0 <= k < |events| && events[k].ReconcileWrite?
      ensures !Straddles(Run(events[..k]), events[k].pid)
    {
      assert events[..k][..k - 1] == events[..k - 1];
      assert Run(events[..k]) == Apply(Run(events[..k - 1]), events[k - 1]);
    }
    SupersededStaysMarkedIff(events);
    assert events[..|events|] == events;
  }

  lemma NothingToMark()
    ensures AllMarked(Run([]))
  {
  }

  /** What a server remembers of its read, while it does not read again. */
  lemma {:induction false} ReadRemembered(before: seq<Event>, between: seq<Event>, pid: Pid, r: Read)
    requires pid in Run(before).seen && Run(before).seen[pid] == r
    requires forall e :: e in between && e.ReconcileRead? ==> e.pid != pid
    ensures var z := Run(before + between); pid in z.seen && z.seen[pid] == r
  {
    hide AddOutputs, Classify, Demote;
    if between == [] {
      assert before + between == before;
    } else {
      var n := |between| - 1;
      ReadRemembered(before, between[..n], pid, r);
      assert (before + between)[..|before + between| - 1] == before + between[..n];
    }
  }

  /** One artifact: a write after `between` leaves the mark off exactly when the read before it did not see the
      job superseded, which it is by the time of the write. */
  lemma MarkLostIff(before: seq<Event>, between: seq<Event>, pid: Pid, a: ArtifactKey, loaded: bool, status: TaskStatus)
    requires var x := Run(before); a in x.artifacts && !x.artifacts[a].deleted
    requires forall e :: e in between && e.ReconcileRead? ==> e.pid != pid
    requires var s := Run(before + [ReconcileRead(pid, a, loaded)] + between);
      ToBeMarked(s, a) && !s.artifacts[a].deleted
    ensures var x := Run(before);
      var z := Run(before + [ReconcileRead(pid, a, loaded)] + between + [ReconcileWrite(pid, status)]);
      && ToBeMarked(z, a)
      && (z.artifacts[a].retention != ResultSuperseded <==> !loaded || x.artifacts[a].job !in x.superseded)
  {
    var read := before + [ReconcileRead(pid, a, loaded)];
    assert read[..|before|] == before;
    ReadRemembered(read, between, pid, Read(a, loaded && Run(before).artifacts[a].job in Run(before).superseded));
    var all := read + between + [ReconcileWrite(pid, status)];
    assert all[..|all| - 1] == read + between;
  }

  /** A run that loses a mark: the first analysis is read, the second supersedes it, then the class is written. */
  lemma MarkCanBeLost()
    ensures exists events :: !AllMarked(Run(events))
  {
    hide Run, AllMarked;
    var a := ArtifactKey(Result, "t/1/a.json");
    var e := [Finalize(Generation(1, 1, Initial), [a]), ReconcileRead(0, a, true),
              Finalize(Generation(2, 2, Initial), []), ReconcileWrite(0, Done)];
    LosingRun(a, e);
    assert !AllMarked(Run(e));
  }

  lemma LosingRun(a: ArtifactKey, e: seq<Event>)
    requires a.kind == Result
    requires e == [Finalize(Generation(1, 1, Initial), [a]), ReconcileRead(0, a, true),
                   Finalize(Generation(2, 2, Initial), []), ReconcileWrite(0, Done)]
    ensures !AllMarked(Run(e))
  {
    var g1, g2 := Generation(1, 1, Initial), Generation(2, 2, Initial);
    assert e[..1][..0] == [] && e[..2][..1] == e[..1] && e[..3][..2] == e[..2];
    assert [a][..0] == [];
    assert AddOutputs(INIT.artifacts, 1, [a]) == AddOutput(INIT.artifacts, 1, a);
    assert !Completed(INIT, 1);
    var s1 := State(Some(1), [g1], {}, {}, map[a := Artifact(1, true, false, Unclassified)], map[]);
    assert Apply(INIT, e[0]) == s1;
    assert Run(e[..1]) == s1;
    var s2 := s1.(seen := map[0 := Read(a, false)]);
    assert Run(e[..2]) == s2;
    assert !Completed(s2, 2);
    assert AttemptOf(s2.history, 1) == 1;
    var s3 := Apply(s2, e[2]);
    assert s3.superseded == {1} && s3.artifacts == map[a := Artifact(1, true, false, ResultSuperseded)];
    assert Run(e[..3]) == s3;
    assert Run(e) == Apply(s3, e[3]);
    assert ToBeMarked(Run(e), a);
  }

  /** A job completed without an election changes neither the active job nor any artifact, and cannot be finalised
      any more. */
  lemma BareIsCompleted(s: State, job: JobId, gen: Generation, outputs: seq<ArtifactKey>)
    requires !Completed(s, job) && gen.job == job
    ensures var z := Apply(s, CompleteBare(job));
      && Completed(z, job) && z.active == s.active && z.history == s.history && z.superseded == s.superseded
      && z.artifacts == s.artifacts && Apply(z, Finalize(gen, outputs)) == z
  {
  }

  /** What is no longer ready is not marked by a superseding. */
  lemma LeftUnmarked(s: State, a: ArtifactKey, gen: Generation, outputs: seq<ArtifactKey>)
    requires Inv(s) && a in s.artifacts && a !in outputs
    ensures var z := Apply(Apply(s, LeaveReady(a)), Finalize(gen, outputs));
      a in z.artifacts && z.artifacts[a] == s.artifacts[a].(ready := false)
  {
    hide Inv;
    StepKeeps(s, LeaveReady(a));
    FinalizeLeavesOthers(Apply(s, LeaveReady(a)), gen, outputs, a);
  }

  lemma TombstoneStep(s: State, e: Event, a: ArtifactKey)
    requires a in s.artifacts && s.artifacts[a].deleted && !s.artifacts[a].ready
    ensures a in Apply(s, e).artifacts && Apply(s, e).artifacts[a] == s.artifacts[a]
  {
    hide AddOutputs, Classify, Finished, AttemptOf;
    if e.Finalize? {
      OutputsFate(s.artifacts, e.gen.job, e.outputs, a);
    }
  }

  /** A deleted artifact never changes again, whatever is finalised or reconciled. */
  lemma {:induction false} TombstoneForever(before: seq<Event>, later: seq<Event>, a: ArtifactKey)
    requires a in Run(before).artifacts
    ensures var z := Run(before + [Tombstone(a)] + later);
      a in z.artifacts && z.artifacts[a] == Run(before).artifacts[a].(ready := false, deleted := true)
  {
    hide Apply;
    var gone := before + [Tombstone(a)];
    if later == [] {
      assert gone + later == gone && gone[..|before|] == before;
      Tombstoned(Run(before), a);
    } else {
      var n := |later| - 1;
      TombstoneForever(before, later[..n], a);
      assert (gone + later)[..|gone + later| - 1] == gone + later[..n];
      TombstoneStep(Run(gone + later[..n]), later[n], a);
    }
  }

  lemma Tombstoned(s: State, a: ArtifactKey)
    requires a in s.artifacts
    ensures Apply(s, Tombstone(a)).artifacts == s.artifacts[a := s.artifacts[a].(ready := false, deleted := true)]
  {
  }

  lemma {:induction false} ManifestsKept(events: seq<Event>, a: ArtifactKey)
    ensures var s := Run(events);
      a in s.artifacts && a.kind == Manifest ==> s.artifacts[a].retention in {Unclassified, ManifestClass}
  {
    if events != [] {
      var n := |events| - 1;
      ManifestsKept(events[..n], a);
      match events[n] {
        case Finalize(gen, outputs) => OutputsUnclassified(Run(events[..n]).artifacts, gen.job, outputs, a);
        case _ =>
      }
    }
  }

  lemma {:induction false} OutputsUnclassified(artifacts: map<ArtifactKey, Artifact>, job: JobId,
                                               outputs: seq<ArtifactKey>,
                                               a: ArtifactKey)
    ensures var z := AddOutputs(artifacts, job, outputs);
      && (a in artifacts ==> a in z && z[a].retention == artifacts[a].retention)
      && (a in z && a !in artifacts ==> z[a].retention == Unclassified)
  {
    if outputs != [] {
      OutputsUnclassified(artifacts, job, outputs[..|outputs| - 1], a);
    }
  }

  /** After a finalisation every output that is not a tombstone is a ready row of the job, also one that an
      earlier job had registered. */
  lemma {:induction false} OutputsRegistered(artifacts: map<ArtifactKey, Artifact>, job: JobId,
                                             outputs: seq<ArtifactKey>,
                                             o: ArtifactKey)
    requires o in outputs
    ensures var z := AddOutputs(artifacts, job, outputs);
      o in z && if o in artifacts && artifacts[o].deleted then z[o] == artifacts[o]
                else z[o].job == job && z[o].ready && !z[o].deleted
  {
    var init, last := outputs[..|outputs| - 1], outputs[|outputs| - 1];
    OutputsFate(artifacts, job, init, o);
    if o in init {
      OutputsRegistered(artifacts, job, init, o);
    }
  }

  lemma {:induction false} OutputsFate(artifacts: map<ArtifactKey, Artifact>, job: JobId, outputs: seq<ArtifactKey>,
                                       o: ArtifactKey)
    ensures var z := AddOutputs(artifacts, job, outputs);
      && (o in artifacts ==> o in z)
      && (o in z ==> (z[o].deleted <==> o in artifacts && artifacts[o].deleted))
      && (o in z && z[o].deleted ==> z[o] == artifacts[o])
  {
    if outputs != [] {
      OutputsFate(artifacts, job, outputs[..|outputs| - 1], o);
    }
  }

  // The task's rows as the daemon updates them

  class TaskRows {
    var active: Option<JobId>
    var history: seq<Generation>
    var bare: set<JobId>
    var superseded: set<JobId>
    var artifacts: map<ArtifactKey, Artifact>

    /** The rows, with nothing read by a reconciling server. */
    function Db(): State
      reads this
    {
      State(active, history, bare, superseded, artifacts, map[])
    }

    constructor ()
      ensures Db() == INIT
    {
      active, history, bare, superseded, artifacts := None, [], {}, {}, map[];
    }

    method PrevAttempt(prev: JobId) returns (attemptId: nat)
      ensures attemptId == AttemptOf(history, prev)
    {
      var i := |history|;
      assert history[..i] == history;
      while i > 0
        invariant 0 <= i <= |history|
        invariant AttemptOf(history, prev) == AttemptOf(history[..i], prev)
      {
        assert history[..i][..i - 1] == history[..i - 1];
        if history[i - 1].job == prev {
          return history[i - 1].attemptId;
        }
        i := i - 1;
      }
      attemptId := 0;
    }

    /** The election, in the transaction that completes the job. */
    method SwitchActive(gen: Generation) returns (switched: bool)
      modifies this
      ensures Db() == Switch(old(Db()), gen) && switched == ShouldSwitch(old(Db()), gen)
    {
      switched := true;
      if gen.trigger == Initial && active.Some? {
        var prevAttempt := PrevAttempt(active.value);
        if prevAttempt > gen.attemptId {
          switched := false;
        }
      }
      if switched {
        if active.Some? {
          superseded := superseded + {active.value};
          artifacts := Demote(artifacts, active.value);
        }
        active := Some(gen.job);
      } else {
        superseded := superseded + {gen.job};
        artifacts := Demote(artifacts, gen.job);
      }
      history := history + [gen];
    }

    /** Registers the outputs, completes the job and elects the active one, all or nothing. */
    method FinalizeSuccess(gen: Generation, outputs: seq<ArtifactKey>) returns (ok: bool)
      requires Inv(Db())
      modifies this
      ensures ok == !Completed(old(Db()), gen.job)
      ensures Db() == Apply(old(Db()), Finalize(gen, outputs)) && Inv(Db())
    {
      StepKeeps(Db(), Finalize(gen, outputs));
      ok := !Completed(Db(), gen.job);
      if ok {
        artifacts := AddOutputs(artifacts, gen.job, outputs);
        var switched := SwitchActive(gen);
      }
    }
  }
}

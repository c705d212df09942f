/**
 Leases on analysis jobs. Workers claim, renew and finish jobs by conditional updates of the shared job
 rows; a worker keeps the job as it was when it last claimed one.
 */
module Lease {
  import opened Wrappers

  type Time = int
  type JobId = nat
  type Worker = string

  datatype Status = Pending | Running | Success | Failed | Retry

  /** maxAttempts is a nullable column. */
  datatype Row = Row(created: Time, status: Status, owner: Worker, expires: Option<Time>, attempt: nat,
                     maxAttempts: Option<int>)

  /** The job a worker is working on, as returned by its claim. */
  datatype Record = Record(job: JobId, attempt: nat, maxAttempts: int)

  /** takeovers counts, for each job, the claims that took it from a worker whose lease had run out. */
  datatype State = State(now: Time, jobs: map<JobId, Row>, records: map<Worker, Record>, takeovers: map<JobId, nat>)

  const INIT: State := State(0, map[], map[], map[])

  const COLUMN_DEFAULT: int := 3

  datatype Event =
    | Tick(seconds: nat)
    | Create(job: JobId, maxAttempts: Option<int>)
    | Claim(worker: Worker, job: JobId, lease: int)
    | Heartbeat(worker: Worker, job: JobId, lease: int)
    | Complete(worker: Worker)
    | Fail(worker: Worker, retryable: bool)

  function Column(maxAttempts: Option<int>): int {
    match maxAttempts case None => COLUMN_DEFAULT case Some(m) => m
  }

  /** Zero means the limit of the environment. */
  function Effective(maxAttempts: int, envDefault: int): int {
    if maxAttempts == 0 then envDefault else maxAttempts
  }

  predicate ShouldRetry(r: Record, envDefault: int) {
    r.attempt < Effective(r.maxAttempts, envDefault)
  }

  predicate Expired(row: Row, now: Time) {
    row.status == Running && row.expires.Some? && row.expires.value < now
  }

  predicate Claimable(row: Row, now: Time) {
    row.status == Pending || row.status == Retry || Expired(row, now)
  }

  function Claimed(row: Row, worker: Worker, now: Time, lease: int): Row {
    row.(status := Running, owner := worker, expires := Some(now + lease), attempt := row.attempt + 1)
  }

  predicate Holds(s: State, worker: Worker) {
    worker in s.records && s.records[worker].job in s.jobs && s.jobs[s.records[worker].job].owner == worker
  }

  function Finish(s: State, worker: Worker, status: Status): State
    requires worker in s.records
  {
    var job := s.records[worker].job;
    if Holds(s, worker) then
      s.(jobs := s.jobs[job := s.jobs[job].(status := status, owner := "", expires := None)])
    else s
  }

  function Apply(s: State, e: Event, envDefault: int): State {
    match e
    case Tick(seconds) => s.(now := s.now + seconds)
    case Create(job, maxAttempts) =>
      if job in s.jobs then s
      else s.(jobs := s.jobs[job := Row(s.now, Pending, "", None, 0, maxAttempts)], takeovers := s.takeovers[job := 0])
    case Claim(worker, job, lease) =>
      if worker != "" && job in s.jobs && job in s.takeovers && Claimable(s.jobs[job], s.now) then
        var row := s.jobs[job];
        s.(jobs := s.jobs[job := Claimed(row, worker, s.now, lease)],
           records := s.records[worker := Record(job, row.attempt + 1, Column(row.maxAttempts))],
           takeovers := s.takeovers[job := s.takeovers[job] + if row.status == Running then 1 else 0])
      else s
    case Heartbeat(worker, job, lease) =>
      if worker != "" && job in s.jobs && s.jobs[job].status == Running && s.jobs[job].owner == worker
      then s.(jobs := s.jobs[job := s.jobs[job].(expires := Some(s.now + lease))]) else s
    case Complete(worker) => if worker in s.records then Finish(s, worker, Success) else s
    case Fail(worker, retryable) =>
      if worker in s.records
      then Finish(s, worker, if retryable && ShouldRetry(s.records[worker], envDefault) then Retry else Failed) else s
  }

  function Run(s: State, events: seq<Event>, envDefault: int): State {
    if events == [] then s else Apply(Run(s, events[..|events| - 1], envDefault), events[|events| - 1], envDefault)
  }

  // The invariant

  function Max(a: int, b: int): int {
    if a > b then a else b
  }

  ghost predicate RowOk(row: Row, takeovers: nat, envDefault: int) {
    var limit := Effective(Column(row.maxAttempts), envDefault);
    && (row.status == Running <==> row.owner != "")
    && (row.status == Running <==> row.expires.Some?)
    && row.attempt <= Max(1, limit) + takeovers
    && (row.status == Pending ==> row.attempt == 0)
    && (row.status == Retry ==> row.attempt < limit + takeovers)
  }

  /** While a worker owns the job of its record, the record is what the row says. */
  ghost predicate RecordOk(jobs: map<JobId, Row>, worker: Worker, r: Record) {
    && worker != ""
    && (r.job in jobs && jobs[r.job].owner == worker ==>
      r.attempt == jobs[r.job].attempt && r.maxAttempts == Column(jobs[r.job].maxAttempts))
  }

  ghost predicate Inv(s: State, envDefault: int) {
    && s.jobs.Keys == s.takeovers.Keys
    && (forall j :: j in s.jobs ==> RowOk(s.jobs[j], s.takeovers[j], envDefault))
    && (forall w :: w in s.records ==> RecordOk(s.jobs, w, s.records[w]))
  }

  lemma ClaimKeeps(s: State, worker: Worker, job: JobId, lease: int, envDefault: int)
    requires Inv(s, envDefault)
    ensures Inv(Apply(s, Claim(worker, job, lease), envDefault), envDefault)
  {
    var z := Apply(s, Claim(worker, job, lease), envDefault);
    if z != s {
      assert RowOk(s.jobs[job], s.takeovers[job], envDefault);
      forall w | w in z.records ensures RecordOk(z.jobs, w, z.records[w]) {
        assert w != worker ==> RecordOk(s.jobs, w, s.records[w]);
      }
    }
  }

  lemma FinishKeeps(s: State, worker: Worker, status: Status, envDefault: int)
    requires Inv(s, envDefault) && worker in s.records && status in {Success, Failed, Retry}
    requires status == Retry ==> ShouldRetry(s.records[worker], envDefault)
    ensures Inv(Finish(s, worker, status), envDefault)
  {
    var job := s.records[worker].job;
    if Holds(s, worker) {
      assert RecordOk(s.jobs, worker, s.records[worker]);
      assert RowOk(s.jobs[job], s.takeovers[job], envDefault);
      var z := Finish(s, worker, status);
      forall w | w in z.records ensures RecordOk(z.jobs, w, z.records[w]) {
        assert RecordOk(s.jobs, w, s.records[w]);
      }
    }
  }

  lemma OtherKeeps(s: State, e: Event, envDefault: int)
    requires Inv(s, envDefault) && (e.Tick? || e.Create? || e.Heartbeat?)
    ensures Inv(Apply(s, e, envDefault), envDefault)
  {
    var z := Apply(s, e, envDefault);
    forall w | w in z.records ensures RecordOk(z.jobs, w, z.records[w]) {
      assert RecordOk(s.jobs, w, s.records[w]);
    }
  }

  lemma StepKeeps(s: State, e: Event, envDefault: int)
    requires Inv(s, envDefault)
    ensures Inv(Apply(s, e, envDefault), envDefault)
  {
    hide Inv;
    match e {
      case Claim(worker, job, lease) => ClaimKeeps(s, worker, job, lease, envDefault);
      case Complete(worker) =>
        if worker in s.records { FinishKeeps(s, worker, Success, envDefault); }
      case Fail(worker, retryable) =>
        if worker in s.records {
          var status := if retryable && ShouldRetry(s.records[worker], envDefault) then Retry else Failed;
          FinishKeeps(s, worker, status, envDefault);
        }
      case _ => OtherKeeps(s, e, envDefault);
    }
  }

  lemma {:induction false} RunKeeps(events: seq<Event>, envDefault: int)
    ensures Inv(Run(INIT, events, envDefault), envDefault)
  {
    if events != [] {
      RunKeeps(events[..|events| - 1], envDefault);
      StepKeeps(Run(INIT, events[..|events| - 1], envDefault), events[|events| - 1], envDefault);
    }
  }

  // What holds in every run

  /** A job is running exactly when it has an owner, and has been tried no more often than its limit plus the
      times it was taken over. */
  lemma JobsAreBounded(events: seq<Event>, envDefault: int, job: JobId)
    ensures var s := Run(INIT, events, envDefault);
      job in s.jobs ==>
        && job in s.takeovers
        && (s.jobs[job].status == Running <==> s.jobs[job].owner != "")
        && s.jobs[job].attempt <= Max(1, Effective(Column(s.jobs[job].maxAttempts), envDefault)) + s.takeovers[job]
  {
    RunKeeps(events, envDefault);
  }

  /** A job with limit `m` in its column was tried at most max(1, `m`) times plus its takeovers. */
  ghost predicate WithinColumn(s: State, job: JobId, m: Option<int>) {
    job in s.jobs && job in s.takeovers && s.jobs[job].maxAttempts == m ==>
      s.jobs[job].attempt <= Max(1, Column(m)) + s.takeovers[job]
  }

  const RETRIED := [Create(0, Some(0)), Claim("w", 0, 300), Fail("w", true), Claim("w", 0, 300)]

  /** With zero in the column the limit of the environment applies: from two on, such a job gets a second try
      without any takeover. */
  lemma ZeroIsNotTheLimit(envDefault: int)
    requires envDefault >= 2
    ensures !WithinColumn(Run(INIT, RETRIED, envDefault), 0, Some(0))
  {
    var e := RETRIED;
    var s1 := Apply(INIT, e[0], envDefault);
    var s2 := Apply(s1, e[1], envDefault);
    var s3 := Apply(s2, e[2], envDefault);
    assert s3.jobs[0].status == Retry;
    assert e[..1][..0] == [] && e[..2][..1] == e[..1] && e[..3][..2] == e[..2];
    assert Run(INIT, e[..1], envDefault) == s1;
    assert Run(INIT, e[..2], envDefault) == s2;
    assert Run(INIT, e[..3], envDefault) == s3;
    assert Run(INIT, e, envDefault) == Apply(s3, e[3], envDefault);
  }

  /** The column bounds the tries in every run exactly when it is not zero or the environment allows one try. */
  lemma ColumnIsTheLimitIff(m: Option<int>, envDefault: int)
    ensures (forall events, job :: WithinColumn(Run(INIT, events, envDefault), job, m)) <==>
      Column(m) != 0 || envDefault <= 1
  {
    if Column(m) != 0 || envDefault <= 1 {
      forall events, job
        ensures WithinColumn(Run(INIT, events, envDefault), job, m)
      {
        JobsAreBounded(events, envDefault, job);
      }
    } else {
      ZeroIsNotTheLimit(envDefault);
      assert !WithinColumn(Run(INIT, RETRIED, envDefault), 0, m);
    }
  }

  /** How a worker ends the job of its record. While it owns the job, completing makes it a success, and failing
      makes it due again exactly if the failure is retryable and the tries are below the limit, which is that of
      the column unless that is zero; else it fails. In every case the lease is given up. A worker that lost the
      job changes nothing. */
  lemma HolderDecides(events: seq<Event>, envDefault: int, worker: Worker, retryable: bool)
    requires worker in Run(INIT, events, envDefault).records
    ensures var s := Run(INIT, events, envDefault); var job := s.records[worker].job;
      var completed := Apply(s, Complete(worker), envDefault);
      var failed := Apply(s, Fail(worker, retryable), envDefault);
      if job in s.jobs && s.jobs[job].owner == worker then
        var row := s.jobs[job]; var column := if row.maxAttempts.Some? then row.maxAttempts.value else 3;
        var again := retryable && row.attempt < if column != 0 then column else envDefault;
        && completed == s.(jobs := s.jobs[job := row.(status := Success, owner := "", expires := None)])
        && failed == s.(jobs := s.jobs[job :=
             row.(status := if again then Retry else Failed, owner := "", expires := None)])
      else completed == s && failed == s
  {
    RunKeeps(events, envDefault);
    var s := Run(INIT, events, envDefault);
    assert RecordOk(s.jobs, worker, s.records[worker]);
  }

  /** A claim gives the job to the worker exactly if it is new, due again, or its lease has run out. */
  lemma ClaimGives(s: State, worker: Worker, job: JobId, lease: int, envDefault: int)
    requires worker != "" && job in s.jobs && job in s.takeovers
    ensures var row := s.jobs[job]; var z := Apply(s, Claim(worker, job, lease), envDefault);
      var lapsed := row.status == Running && row.expires.Some? && row.expires.value < s.now;
      if row.status == Pending || row.status == Retry || lapsed then
        && z.jobs == s.jobs[job := row.(status := Running, owner := worker, expires := Some(s.now + lease),
                                        attempt := row.attempt + 1)]
        && worker in z.records && z.records[worker].job == job && z.records[worker].attempt == row.attempt + 1
        && z.takeovers == s.takeovers[job := s.takeovers[job] + if row.status == Running then 1 else 0]
      else z == s
  {
  }

  lemma FinalStep(s: State, e: Event, envDefault: int, job: JobId)
    requires Inv(s, envDefault) && job in s.jobs && s.jobs[job].status in {Success, Failed}
    ensures job in Apply(s, e, envDefault).jobs && Apply(s, e, envDefault).jobs[job] == s.jobs[job]
  {
    assert RowOk(s.jobs[job], s.takeovers[job], envDefault);
    assert forall w :: w in s.records ==> RecordOk(s.jobs, w, s.records[w]);
  }

  /** A finished job never changes again, whatever stale workers still do. */
  lemma {:induction false} FinalForever(before: seq<Event>, later: seq<Event>, envDefault: int, job: JobId)
    requires var s := Run(INIT, before, envDefault); job in s.jobs && s.jobs[job].status in {Success, Failed}
    ensures var z := Run(INIT, before + later, envDefault);
      job in z.jobs && z.jobs[job] == Run(INIT, before, envDefault).jobs[job]
  {
    hide Apply, Inv;
    if later == [] {
      assert before + later == before;
    } else {
      var n := |later| - 1;
      FinalForever(before, later[..n], envDefault, job);
      assert (before + later)[..|before + later| - 1] == before + later[..n];
      RunKeeps(before + later[..n], envDefault);
      FinalStep(Run(INIT, before + later[..n], envDefault), later[n], envDefault, job);
    }
  }

  /** No step of one worker changes a job another worker holds, except a claim after the lease ran out. */
  lemma OnlyExpiryTakesOver(events: seq<Event>, e: Event, envDefault: int, job: JobId)
    requires var s := Run(INIT, events, envDefault); job in s.jobs && s.jobs[job].status == Running
    requires e.Claim? || e.Heartbeat? || e.Complete? || e.Fail?
    requires e.worker != Run(INIT, events, envDefault).jobs[job].owner
    ensures var s := Run(INIT, events, envDefault); var z := Apply(s, e, envDefault);
      job in z.jobs && (z.jobs[job] != s.jobs[job] ==> e.Claim? && e.job == job && Expired(s.jobs[job], s.now))
  {
    RunKeeps(events, envDefault);
    var s := Run(INIT, events, envDefault);
    assert forall w :: w in s.records ==> RecordOk(s.jobs, w, s.records[w]);
  }

  ghost predicate OldestOf(jobs: map<JobId, Row>, among: set<JobId>, now: Time, j: JobId) {
    && j in jobs && j in among && Claimable(jobs[j], now)
    && forall k :: k in jobs && k in among && Claimable(jobs[k], now) ==> jobs[j].created <= jobs[k].created
  }

  // The shared table and the client's updates of it

  class JobTable {
    var jobs: map<JobId, Row>

    /** The oldest job that can be claimed and is not locked by another claim. */
    method PickOldest(now: Time, locked: set<JobId>) returns (picked: Option<JobId>)
      ensures picked.None? <==> forall j :: j in jobs && j !in locked ==> !Claimable(jobs[j], now)
      ensures picked.Some? ==> OldestOf(jobs, jobs.Keys - locked, now, picked.value)
    {
      picked := None;
      var rest := jobs.Keys - locked;
      while rest != {}
        invariant rest <= jobs.Keys - locked
        invariant picked.None? ==> forall j :: j in jobs && j !in locked && j !in rest ==> !Claimable(jobs[j], now)
        invariant picked.Some? ==> OldestOf(jobs, jobs.Keys - locked - rest, now, picked.value)
      {
        var j :| j in rest;
        rest := rest - {j};
        if Claimable(jobs[j], now) && (picked.None? || jobs[j].created < jobs[picked.value].created) {
          picked := Some(j);
        }
      }
    }

    /** Claims that job for the worker: the step of the job table, with the record the daemon keeps. */
    method ClaimOne(worker: Worker, now: Time, lease: int, locked: set<JobId>, ghost s: State, ghost envDefault: int)
      returns (record: Option<Record>)
      requires worker != "" && jobs == s.jobs && now == s.now && jobs.Keys == s.takeovers.Keys
      modifies this
      ensures record.None? ==> jobs == s.jobs && forall j :: j in jobs && j !in locked ==> !Claimable(jobs[j], now)
      ensures record.Some? ==>
        && var j := record.value.job; var z := Apply(s, Claim(worker, j, lease), envDefault);
        && j !in locked && OldestOf(s.jobs, s.jobs.Keys - locked, now, j)
        && jobs == z.jobs && worker in z.records && record.value == z.records[worker]
        && jobs[j].status == Running && jobs[j].owner == worker && record.value.attempt == s.jobs[j].attempt + 1
    {
      var picked := PickOldest(now, locked);
      if picked.None? {
        return None;
      }
      var j := picked.value;
      jobs := jobs[j := Claimed(jobs[j], worker, now, lease)];
      record := Some(Record(j, jobs[j].attempt, Column(jobs[j].maxAttempts)));
    }

    /** Renews the lease of the owner of a running job: the heartbeat step. */
    method Renew(worker: Worker, j: JobId, now: Time, lease: int, ghost s: State, ghost envDefault: int)
      returns (ok: bool)
      requires worker != "" && jobs == s.jobs && now == s.now
      modifies this
      ensures ok <==> j in s.jobs && s.jobs[j].status == Running && s.jobs[j].owner == worker
      ensures jobs == Apply(s, Heartbeat(worker, j, lease), envDefault).jobs
      ensures ok ==> jobs[j].expires == Some(now + lease)
    {
      ok := j in jobs && jobs[j].status == Running && jobs[j].owner == worker;
      if ok {
        jobs := jobs[j := jobs[j].(expires := Some(now + lease))];
      }
    }

    /** The update is guarded by the owner alone. */
    method FinishJob(s: State, worker: Worker, status: Status) returns (ok: bool)
      requires worker in s.records && jobs == s.jobs
      modifies this
      ensures ok <==> Holds(s, worker)
      ensures jobs == Finish(s, worker, status).jobs
    {
      var j := s.records[worker].job;
      ok := j in jobs && jobs[j].owner == worker;
      if ok {
        jobs := jobs[j := jobs[j].(status := status, owner := "", expires := None)];
      }
    }
  }
}

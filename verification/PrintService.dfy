/** The spool repository and the print service, statement by statement, against the spool functions. */
module PrintService {
  import opened Wrappers
  import opened Rows
  import opened Comandas
  import opened PrintSpool
  import PrintRuns

  /** The columns `registerAttempt` writes. */
  datatype Attempt = Attempt(
    status: JobStatus,
    incrementAttempts: bool,
    lastAttemptAt: Option<Time>,
    leaseExpiresAt: Option<Time>,
    lastErrorCode: Option<string>,
    lastErrorMessage: Option<string>,
    nextRetryAt: Option<Time>,
    printedAt: Option<Time>)

  function Registered(job: Job, attempt: Attempt): Job {
    job.(status := attempt.status, attempts := job.attempts + (if attempt.incrementAttempts then 1 else 0),
         lastErrorCode := attempt.lastErrorCode, lastErrorMessage := attempt.lastErrorMessage,
         nextRetryAt := attempt.nextRetryAt, lastAttemptAt := attempt.lastAttemptAt,
         leaseExpiresAt := attempt.leaseExpiresAt, printedAt := attempt.printedAt)
  }

  class PrintSpoolRepository {
    var jobs: Spool

    constructor ()
      ensures jobs == []
    {
      jobs := [];
    }

    method EnqueueJob(job: Job) returns (record: Job)
      modifies this
      ensures jobs == Enqueue(old(jobs), job)
      ensures FindKey(jobs, job.dedupKey) < |jobs| && record == jobs[FindKey(jobs, job.dedupKey)]
    {
      var k := FindKey(jobs, job.dedupKey);
      if k < |jobs| {
        return jobs[k];
      }
      jobs := jobs + [job];
      assert jobs[k].dedupKey == job.dedupKey && FindKey(jobs, job.dedupKey) == k;
      record := job;
    }

    /** Runs inside `executeTransaction`: a missing original throws before anything is written. */
    method CreateSecondCopyJob(originalId: Id, copyId: Id, queuedAt: Time) returns (copy: Option<Job>)
      requires PrintRuns.Inv(jobs) && PrintRuns.Unused(jobs, copyId)
      modifies this
      ensures jobs == CreateSecondCopy(old(jobs), originalId, copyId, queuedAt)
      ensures var k := FindJob(old(jobs), originalId);
              && (copy.Some? <==> k < |old(jobs)|)
              && (copy.Some? ==> copy.value == SecondCopy(old(jobs)[k], copyId, queuedAt) && jobs[|jobs| - 1] == copy.value)
    {
      var k := FindJob(jobs, originalId);
      if k == |jobs| {
        return None;
      }
      var original := jobs[k];
      PrintRuns.CopiesNumbered(jobs, k, 0);
      assert SecondCopy(original, copyId, queuedAt).dedupKey == CopyKey(original.printJobId, original.secondCopyCount + 1);
      hide SecondCopy, PrintRuns.Inv, PrintRuns.Unused, FindJob;
      var record := EnqueueJob(SecondCopy(original, copyId, queuedAt));
      jobs := jobs[k := jobs[k].(secondCopyCount := jobs[k].secondCopyCount + 1)];
      return Some(record);
    }

    /** Selects the first ready job in creation order and leases it. */
    method ClaimNextReady(asOf: Time, leaseExpiresAt: Time) returns (claimed: Option<Job>)
      modifies this
      ensures var k := FirstReady(old(jobs), asOf);
              && (claimed.Some? <==> k < |old(jobs)|)
              && (claimed.None? ==> jobs == old(jobs))
              && (claimed.Some? ==> claimed.value == Lease(old(jobs)[k], leaseExpiresAt) && jobs == old(jobs)[k := claimed.value])
    {
      var k := FirstReady(jobs, asOf);
      if k == |jobs| {
        return None;
      }
      jobs := jobs[k := Lease(jobs[k], leaseExpiresAt)];
      return Some(jobs[k]);
    }

    method RegisterAttempt(id: Id, attempt: Attempt) returns (record: Job)
      requires FindJob(jobs, id) < |jobs|
      modifies this
      ensures var k := FindJob(old(jobs), id);
              jobs == old(jobs)[k := Registered(old(jobs)[k], attempt)] && record == jobs[k]
    {
      var k := FindJob(jobs, id);
      jobs := jobs[k := Registered(jobs[k], attempt)];
      record := jobs[k];
    }
  }

  datatype CycleResult = CycleResult(
    processedCount: nat,
    doneCount: nat,
    waitingPrinterCount: nat,
    needsAttentionCount: nat,
    jobs: seq<Job>)

  /** `jobs.filter((job) => job.status === status).length`. */
  function CountStatus(jobs: seq<Job>, status: JobStatus): nat {
    if jobs == [] then 0 else (if jobs[0].status == status then 1 else 0) + CountStatus(jobs[1..], status)
  }

  function Summary(jobs: seq<Job>): CycleResult {
    CycleResult(|jobs|, CountStatus(jobs, Done), CountStatus(jobs, WaitingPrinter), CountStatus(jobs, NeedsAttention), jobs)
  }

  /** Every processed job is counted under exactly one heading. */
  lemma {:induction false} CountsAddUp(jobs: seq<Job>)
    requires forall job :: job in jobs ==> job.status.Done? || job.status.WaitingPrinter? || job.status.NeedsAttention?
    ensures |jobs| == CountStatus(jobs, Done) + CountStatus(jobs, WaitingPrinter) + CountStatus(jobs, NeedsAttention)
  {
    if jobs != [] {
      CountsAddUp(jobs[1..]);
    }
  }

  // ---------- one cycle ----------

  /** The spool, the snapshots and the places of the jobs processed. */
  datatype Progress = Progress(jobs: Spool, processed: seq<Job>, positions: seq<nat>)

  /** The worker loop as a recursion: one more outcome, one more claim. */
  function RunCycle(jobs: Spool, asOf: Time, lease: Time, driver: seq<Outcome>): Progress {
    if driver == [] then Progress(jobs, [], [])
    else
      var done := RunCycle(jobs, asOf, lease, driver[..|driver| - 1]);
      var k := FirstReady(done.jobs, asOf);
      if k == |done.jobs| then done
      else
        var job := ProcessClaimedJob(Lease(done.jobs[k], lease), asOf, driver[|driver| - 1]);
        Progress(done.jobs[k := job], done.processed + [job], done.positions + [k])
  }

  /** Once nothing is ready, further outcomes change nothing. */
  lemma {:induction false} CycleStops(jobs: Spool, asOf: Time, lease: Time, driver: seq<Outcome>, n: nat)
    requires n <= |driver|
    requires var done := RunCycle(jobs, asOf, lease, driver[..n]); FirstReady(done.jobs, asOf) == |done.jobs|
    ensures RunCycle(jobs, asOf, lease, driver) == RunCycle(jobs, asOf, lease, driver[..n])
    decreases |driver|
  {
    if n < |driver| {
      assert driver[..|driver| - 1][..n] == driver[..n];
      CycleStops(jobs, asOf, lease, driver[..|driver| - 1], n);
    } else {
      assert driver[..n] == driver;
    }
  }

  /** What a cycle has done so far: the jobs at `positions` were processed in order, everything
      before `frontier` is no longer ready, everything else is untouched. */
  ghost predicate SoFar(before: Spool, now: Spool, processed: seq<Job>, positions: seq<nat>, frontier: nat,
                        asOf: Time, lease: Time, driver: seq<Outcome>) {
    && |now| == |before| && |processed| == |positions| <= |driver| && frontier <= |before|
    && (forall k :: 0 <= k < frontier ==> !Ready(now[k], asOf))
    && (forall k :: frontier <= k < |before| ==> now[k] == before[k])
    && (forall i, j :: 0 <= i < j < |positions| ==> positions[i] < positions[j])
    && (forall n :: 0 <= n < |positions| ==> positions[n] < frontier)
    && (forall n :: 0 <= n < |positions| ==> ProcessedAt(before, now, processed[n], positions[n], asOf, lease, driver[n]))
    && (forall k :: 0 <= k < |before| && k !in positions ==> now[k] == before[k])
  }

  ghost predicate ProcessedAt(before: Spool, now: Spool, job: Job, k: nat, asOf: Time, lease: Time, outcome: Outcome) {
    && k < |now| == |before| && Ready(before[k], asOf) && now[k] == job
    && job == ProcessClaimedJob(Lease(before[k], lease), asOf, outcome)
  }

  lemma CycleStep(before: Spool, now: Spool, processed: seq<Job>, positions: seq<nat>, frontier: nat,
                  asOf: Time, lease: Time, driver: seq<Outcome>)
    requires SoFar(before, now, processed, positions, frontier, asOf, lease, driver)
    requires FirstReady(now, asOf) < |now| && |positions| < |driver| && !driver[|positions|].Crashed?
    ensures var k := FirstReady(now, asOf);
            var job := ProcessClaimedJob(Lease(now[k], lease), asOf, driver[|positions|]);
            SoFar(before, now[k := job], processed + [job], positions + [k], k + 1, asOf, lease, driver)
  {
    var k := FirstReady(now, asOf);
    assert k >= frontier;
    PrintRuns.RecordedAttempt(now[k], asOf, lease, driver[|positions|]);
    hide ProcessClaimedJob, Ready, Lease, FirstReady;
    var job := ProcessClaimedJob(Lease(now[k], lease), asOf, driver[|positions|]);
    var next := now[k := job];
    assert ProcessedAt(before, next, job, k, asOf, lease, driver[|positions|]);
    forall n | 0 <= n < |positions + [k]|
      ensures ProcessedAt(before, next, (processed + [job])[n], (positions + [k])[n], asOf, lease, driver[n]) {
      if n < |positions| {
        assert ProcessedAt(before, now, processed[n], positions[n], asOf, lease, driver[n]);
      }
    }
    forall i | 0 <= i < |before| && i !in positions + [k] ensures next[i] == before[i] {
      assert (positions + [k])[|positions|] == k;
      assert i !in positions;
    }
  }

  /** One cycle: every job is processed at most once and in creation order, the rest of the spool is
      untouched, the counts add up, and stopping early means that nothing is ready any more. */
  lemma {:induction false} CycleProperties(before: Spool, asOf: Time, lease: Time, driver: seq<Outcome>) returns (frontier: nat)
    requires forall n :: 0 <= n < |driver| ==> !driver[n].Crashed?
    ensures var done := RunCycle(before, asOf, lease, driver);
            && SoFar(before, done.jobs, done.processed, done.positions, frontier, asOf, lease, driver)
            && (|done.processed| < |driver| ==> FirstReady(done.jobs, asOf) == |done.jobs|)
            && (forall job :: job in done.processed ==> job.status.Done? || job.status.WaitingPrinter? || job.status.NeedsAttention?)
    decreases |driver|
  {
    if driver == [] {
      frontier := 0;
    } else {
      var front := driver[..|driver| - 1];
      var done := RunCycle(before, asOf, lease, front);
      frontier := CycleProperties(before, asOf, lease, front);
      MoreOutcomes(before, done, frontier, asOf, lease, driver);
      if FirstReady(done.jobs, asOf) < |done.jobs| {
        CycleStep(before, done.jobs, done.processed, done.positions, frontier, asOf, lease, driver);
        PrintRuns.RecordedAttempt(done.jobs[FirstReady(done.jobs, asOf)], asOf, lease, driver[|driver| - 1]);
        frontier := FirstReady(done.jobs, asOf) + 1;
      }
    }
  }

  /** processedCount = done + waiting + needsAttention. */
  lemma CycleCounts(before: Spool, asOf: Time, lease: Time, driver: seq<Outcome>)
    requires forall n :: 0 <= n < |driver| ==> !driver[n].Crashed?
    ensures var result := Summary(RunCycle(before, asOf, lease, driver).processed);
            result.processedCount == result.doneCount + result.waitingPrinterCount + result.needsAttentionCount
  {
    var frontier := CycleProperties(before, asOf, lease, driver);
    CountsAddUp(RunCycle(before, asOf, lease, driver).processed);
  }

  lemma MoreOutcomes(before: Spool, done: Progress, frontier: nat, asOf: Time, lease: Time, driver: seq<Outcome>)
    requires driver != []
    requires SoFar(before, done.jobs, done.processed, done.positions, frontier, asOf, lease, driver[..|driver| - 1])
    ensures SoFar(before, done.jobs, done.processed, done.positions, frontier, asOf, lease, driver)
  {
    forall n | 0 <= n < |done.positions|
      ensures ProcessedAt(before, done.jobs, done.processed[n], done.positions[n], asOf, lease, driver[n]) {
      assert ProcessedAt(before, done.jobs, done.processed[n], done.positions[n], asOf, lease, driver[..|driver| - 1][n]);
    }
  }

  /** A cycle is a run of worker steps, so it keeps the invariant of the spool. */
  lemma {:induction false} CycleKeepsInv(jobs: Spool, asOf: Time, lease: Time, driver: seq<Outcome>)
    requires PrintRuns.Inv(jobs)
    ensures PrintRuns.Inv(RunCycle(jobs, asOf, lease, driver).jobs)
    decreases |driver|
  {
    if driver != [] {
      CycleKeepsInv(jobs, asOf, lease, driver[..|driver| - 1]);
      PrintRuns.WorkKeepsInv(RunCycle(jobs, asOf, lease, driver[..|driver| - 1]).jobs, asOf, lease, driver[|driver| - 1]);
    }
  }

  lemma WorkKeepsIds(jobs: Spool, asOf: Time, lease: Time, outcome: Outcome)
    requires DistinctIds(jobs)
    ensures DistinctIds(Work(jobs, asOf, lease, outcome))
  {
    var k := FirstReady(jobs, asOf);
    if k < |jobs| {
      assert ProcessClaimedJob(Lease(jobs[k], lease), asOf, outcome).printJobId == jobs[k].printJobId;
    }
  }

  ghost predicate DistinctIds(jobs: Spool) {
    forall i, j :: 0 <= i < j < |jobs| ==> jobs[i].printJobId != jobs[j].printJobId
  }

  lemma FindsItself(jobs: Spool, k: nat, job: Job)
    requires DistinctIds(jobs) && k < |jobs| && job.printJobId == jobs[k].printJobId
    ensures FindJob(jobs[k := job], job.printJobId) == k
  {
    var f := FindJob(jobs[k := job], job.printJobId);
    assert jobs[k := job][k].printJobId == job.printJobId;
  }

  lemma NoGroups(jobs: Spool, request: Request, groups: seq<Group>, jobIds: seq<Id>, route: string -> Option<string>)
    requires |groups| <= |jobIds|
    ensures EnqueueGroups(jobs, request, groups[..0], jobIds, route) == jobs
    ensures ReusedJobs(jobs, request, groups[..0]) == []
  {
  }

  lemma KeyOfJob(jobId: Id, request: Request, group: Group, route: string -> Option<string>)
    ensures ProductionJob(jobId, request, group, route).dedupKey == GroupKey(request, group)
  {
  }

  /** The jobs created so far carry keys of groups before the n-th. */
  ghost predicate CreatedFor(created: seq<Job>, request: Request, groups: seq<Group>, n: nat) {
    n <= |groups| && forall i :: 0 <= i < |created| ==> KeyedBefore(created[i], request, groups, n)
  }

  ghost predicate KeyedBefore(job: Job, request: Request, groups: seq<Group>, n: nat)
    requires n <= |groups|
  {
    exists m :: 0 <= m < n && job.dedupKey == GroupKey(request, groups[m])
  }

  /** The lookup of the n-th key finds what it would have found before the call. */
  lemma NextLookup(jobs: Spool, created: seq<Job>, request: Request, groups: seq<Group>, n: nat)
    requires CreatedFor(created, request, groups, n) && n < |groups| && DistinctSetores(groups)
    ensures var key := GroupKey(request, groups[n]);
            var (k, l) := (FindKey(jobs, key), FindKey(jobs + created, key));
            && (k < |jobs| ==> l == k) && (k == |jobs| ==> l == |jobs + created|)
            && ReusedJobs(jobs, request, groups[..n + 1]) ==
                 ReusedJobs(jobs, request, groups[..n]) + (if k < |jobs| then [jobs[k]] else [])
  {
    var key := GroupKey(request, groups[n]);
    var k, l := FindKey(jobs, key), FindKey(jobs + created, key);
    assert groups[..n + 1][..n] == groups[..n];
    forall i | 0 <= i < |created| ensures created[i].dedupKey != key {
      assert KeyedBefore(created[i], request, groups, n);
      var m :| 0 <= m < n && created[i].dedupKey == GroupKey(request, groups[m]);
    }
    if k < |jobs| {
      assert (jobs + created)[k] == jobs[k];
      assert l <= k && (jobs + created)[l] == jobs[l];
    } else {
      forall i | 0 <= i < |jobs + created| ensures (jobs + created)[i].dedupKey != key {
        assert (jobs + created)[i] == if i < |jobs| then jobs[i] else created[i - |jobs|];
      }
    }
  }

  lemma OneMoreGroup(jobs: Spool, request: Request, groups: seq<Group>, jobIds: seq<Id>, route: string -> Option<string>, n: nat)
    requires n < |groups| <= |jobIds|
    ensures EnqueueGroups(jobs, request, groups[..n + 1], jobIds, route) ==
            Enqueue(EnqueueGroups(jobs, request, groups[..n], jobIds, route), ProductionJob(jobIds[n], request, groups[n], route))
  {
    hide ProductionJob, Enqueue;
    assert groups[..n + 1][..n] == groups[..n];
  }

  class PrintSpoolService {
    const repository: PrintSpoolRepository
    const leaseDurationMs: nat

    constructor (repository: PrintSpoolRepository, leaseDurationMs: nat)
      ensures this.repository == repository && this.leaseDurationMs == leaseDurationMs
    {
      this.repository := repository;
      this.leaseDurationMs := leaseDurationMs;
    }

    /** `enqueueProductionTickets`: one pass over the groups, reusing the jobs whose key exists. */
    method EnqueueProductionTickets(request: Request, jobIds: seq<Id>, route: string -> Option<string>)
      returns (createdJobs: seq<Job>, reusedJobs: seq<Job>)
      requires |Setores(request.items)| <= |jobIds|
      modifies repository
      ensures repository.jobs == EnqueueTickets(old(repository.jobs), request, jobIds, route)
      ensures repository.jobs == old(repository.jobs) + createdJobs
      ensures reusedJobs == ReusedJobs(old(repository.jobs), request, Groups(request.items))
      ensures |createdJobs| + |reusedJobs| == |Setores(request.items)|
    {
      hide Setores, ProductionJob, EnqueueGroups, FindKey, Groups, ReusedJobs;
      createdJobs, reusedJobs := [], [];
      var groups := GroupItemsBySetor(request.items);
      GroupsDistinct(request.items);
      NoGroups(repository.jobs, request, groups, jobIds, route);
      for n := 0 to |groups|
        invariant repository.jobs == EnqueueGroups(old(repository.jobs), request, groups[..n], jobIds, route)
        invariant repository.jobs == old(repository.jobs) + createdJobs
        invariant CreatedFor(createdJobs, request, groups, n)
        invariant reusedJobs == ReusedJobs(old(repository.jobs), request, groups[..n])
        invariant |createdJobs| + |reusedJobs| == n
      {
        OneMoreGroup(old(repository.jobs), request, groups, jobIds, route, n);
        NextLookup(old(repository.jobs), createdJobs, request, groups, n);
        var job := ProductionJob(jobIds[n], request, groups[n], route);
        assert job.dedupKey == GroupKey(request, groups[n]) by { KeyOfJob(jobIds[n], request, groups[n], route); }
        var existing := FindKey(repository.jobs, job.dedupKey);
        if existing < |repository.jobs| {
          reusedJobs := reusedJobs + [repository.jobs[existing]];
        } else {
          var record := repository.EnqueueJob(job);
          createdJobs := createdJobs + [job];
        }
      }
      assert groups[..|groups|] == groups;
    }

    method ReprocessJob(jobId: Id, requestedAt: Time) returns (requeued: Option<Job>)
      modifies repository
      ensures repository.jobs == Reprocess(old(repository.jobs), jobId, requestedAt)
      ensures var k := FindJob(old(repository.jobs), jobId);
              requeued == if k < |old(repository.jobs)| then Some(Requeued(old(repository.jobs)[k], requestedAt)) else None
    {
      var k := FindJob(repository.jobs, jobId);
      if k == |repository.jobs| {
        return None;
      }
      var current := repository.jobs[k];
      var record := repository.RegisterAttempt(jobId,
        Attempt(Queued, false, Some(requestedAt), None, None, None, None, current.printedAt));
      return Some(record);
    }

    method HandleFailure(claimed: Job, code: string, message: string, retryable: bool, asOf: Time) returns (record: Job)
      requires FindJob(repository.jobs, claimed.printJobId) < |repository.jobs|
      requires repository.jobs[FindJob(repository.jobs, claimed.printJobId)] == claimed
      modifies repository
      ensures record == HandleDriverFailure(claimed, code, message, retryable, asOf)
      ensures repository.jobs == old(repository.jobs)[FindJob(old(repository.jobs), claimed.printJobId) := record]
    {
      var nextAttemptNumber := claimed.attempts + 1;
      var allowAutomaticRetry := retryable && nextAttemptNumber < MAX_AUTOMATIC_ATTEMPTS;
      record := repository.RegisterAttempt(claimed.printJobId,
        Attempt(if allowAutomaticRetry then WaitingPrinter else NeedsAttention, true, Some(asOf), None, Some(code), Some(message),
                if allowAutomaticRetry then Some(ComputeRetryAt(asOf, claimed.attempts)) else None, None));
    }

    /** `#processClaimedJob`, with the driver's answer given. */
    method ProcessClaimed(claimed: Job, asOf: Time, outcome: Outcome) returns (record: Job)
      requires !outcome.Crashed?
      requires FindJob(repository.jobs, claimed.printJobId) < |repository.jobs|
      requires repository.jobs[FindJob(repository.jobs, claimed.printJobId)] == claimed
      modifies repository
      ensures record == ProcessClaimedJob(claimed, asOf, outcome)
      ensures repository.jobs == old(repository.jobs)[FindJob(old(repository.jobs), claimed.printJobId) := record]
    {
      if claimed.printerTargetName.None? || claimed.printerTargetName.value == "" {
        record := repository.RegisterAttempt(claimed.printJobId,
          Attempt(NeedsAttention, true, Some(asOf), None, Some("PRINTER_ROUTE_MISSING"),
                  Some("Setor sem impressora configurada para impressao."), None, None));
      } else if outcome.Offline? {
        record := HandleFailure(claimed, "PRINTER_OFFLINE", OfflineMessage(claimed.printerTargetName.value), true, asOf);
      } else if outcome.Printed? {
        record := repository.RegisterAttempt(claimed.printJobId,
          Attempt(Done, true, Some(asOf), None, None, None, None, Some(asOf)));
      } else {
        record := HandleFailure(claimed, outcome.code, outcome.message, outcome.retryable, asOf);
      }
    }

    /** The body of the worker loop: claim the next ready job and process it. */
    method ProcessNext(asOf: Time, outcome: Outcome) returns (processed: Option<Job>)
      requires DistinctIds(repository.jobs) && !outcome.Crashed?
      modifies repository
      ensures var before := old(repository.jobs);
              var k := FirstReady(before, asOf);
              && repository.jobs == Work(before, asOf, asOf + leaseDurationMs, outcome)
              && (processed.Some? <==> k < |before|)
              && (processed.None? ==> repository.jobs == before)
              && (processed.Some? ==>
                    && processed.value == ProcessClaimedJob(Lease(before[k], asOf + leaseDurationMs), asOf, outcome)
                    && repository.jobs == before[k := processed.value])
    {
      ghost var k, before := FirstReady(repository.jobs, asOf), repository.jobs;
      var claimed := repository.ClaimNextReady(asOf, asOf + leaseDurationMs);
      if claimed.None? {
        return None;
      }
      FindsItself(before, k, claimed.value);
      var record := ProcessClaimed(claimed.value, asOf, outcome);
      return Some(record);
    }

    /** `processPendingJobs`; `driver[n]` is what happens to the n-th job claimed. */
    method ProcessPendingJobs(asOf: Time, limit: nat, driver: seq<Outcome>) returns (result: CycleResult, ghost positions: seq<nat>)
      requires DistinctIds(repository.jobs)
      requires |driver| == limit && forall n :: 0 <= n < limit ==> !driver[n].Crashed?
      modifies repository
      ensures Progress(repository.jobs, result.jobs, positions) == RunCycle(old(repository.jobs), asOf, asOf + leaseDurationMs, driver)
      ensures result == Summary(result.jobs)
    {
      hide ProcessClaimedJob, FirstReady, HandleDriverFailure, Work;
      var processedJobs: seq<Job> := [];
      ghost var before, lease := repository.jobs, asOf + leaseDurationMs;
      positions := [];
      for index := 0 to limit
        invariant DistinctIds(repository.jobs)
        invariant Progress(repository.jobs, processedJobs, positions) == RunCycle(before, asOf, lease, driver[..index])
      {
        ghost var k, now := FirstReady(repository.jobs, asOf), repository.jobs;
        var processed := ProcessNext(asOf, driver[index]);
        if processed.None? {
          CycleStops(before, asOf, lease, driver, index);
          return Summary(processedJobs), positions;
        }
        WorkKeepsIds(now, asOf, lease, driver[index]);
        assert driver[..index + 1][..index] == driver[..index];
        processedJobs := processedJobs + [processed.value];
        positions := positions + [k];
      }
      assert driver[..limit] == driver;
      result := Summary(processedJobs);
    }
  }
}

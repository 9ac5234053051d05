/** What every reachable spool satisfies, over all runs of enqueueing, claiming, crashing,
    recording an outcome, manual requeueing and reprinting. */
module PrintRuns {
  import opened Wrappers
  import opened Rows
  import opened Comandas
  import opened PrintSpool

  datatype Operation =
    | Tickets(request: Request, jobIds: seq<Id>, route: string -> Option<string>)
    | Worker(asOf: Time, leaseExpiresAt: Time, outcome: Outcome)
    | Requeue(jobId: Id, at: Time)
    | Reprint(originalId: Id, copyId: Id, at: Time)

  ghost predicate Unused(jobs: Spool, id: Id) {
    forall i :: 0 <= i < |jobs| ==> jobs[i].printJobId != id
  }

  /** Generated job ids are new and distinct. */
  ghost predicate FreshIds(jobs: Spool, op: Operation) {
    && (op.Tickets? ==>
          && |Setores(op.request.items)| <= |op.jobIds|
          && (forall i :: 0 <= i < |op.jobIds| ==> Unused(jobs, op.jobIds[i]))
          && (forall i, j :: 0 <= i < j < |op.jobIds| ==> op.jobIds[i] != op.jobIds[j]))
    && (op.Reprint? ==> Unused(jobs, op.copyId))
  }

  ghost function Step(jobs: Spool, op: Operation): Spool
    requires FreshIds(jobs, op)
  {
    match op
    case Tickets(request, jobIds, route) => EnqueueTickets(jobs, request, jobIds, route)
    case Worker(asOf, lease, outcome) => Work(jobs, asOf, lease, outcome)
    case Requeue(jobId, at) => Reprocess(jobs, jobId, at)
    case Reprint(originalId, copyId, at) => CreateSecondCopy(jobs, originalId, copyId, at)
  }

  /** A run records every spool it passes through. */
  ghost predicate IsRun(trace: seq<Spool>, ops: seq<Operation>) {
    && |trace| == |ops| + 1
    && forall i :: 0 <= i < |ops| ==> FreshIds(trace[i], ops[i]) && trace[i + 1] == Step(trace[i], ops[i])
  }

  // ---------- the invariant ----------

  predicate Settled(job: Job) {
    job.status.Done? || job.status.NeedsAttention?
  }

  predicate JobOk(job: Job) {
    && (job.status.Printing? <==> job.leaseExpiresAt.Some?)
    && (job.status.WaitingPrinter? ==> 1 <= job.attempts <= 2 && job.nextRetryAt.Some?)
    && (job.status.Queued? ==> job.nextRetryAt.None?)
    && (job.status.Done? ==> job.printedAt.Some? && job.lastErrorCode.None? && job.lastErrorMessage.None?)
    && (job.status.NeedsAttention? ==> job.lastErrorCode.Some? && job.nextRetryAt.None?)
  }

  /** The key, the kind and the payload of a ticket belong together. */
  predicate KeyOk(job: Job) {
    match job.dedupKey
    case ProductionKey(source, batch, setor) =>
      job.ticketKind.Producao? && source == job.sourceEntityId && batch == job.payload.batchId && setor == job.setor
    case CopyKey(original, sequence) => job.ticketKind.SegundaVia? && job.secondCopyOfJobId == Some(original)
  }

  ghost predicate HasCopy(jobs: Spool, original: Id, sequence: nat) {
    exists j :: 0 <= j < |jobs| && jobs[j].dedupKey == CopyKey(original, sequence)
  }

  ghost predicate Counts(jobs: Spool, original: Id, sequence: nat) {
    exists o :: 0 <= o < |jobs| && jobs[o].printJobId == original && 1 <= sequence <= jobs[o].secondCopyCount
  }

  ghost predicate KeysOk(jobs: Spool) {
    && (forall i, j :: 0 <= i < j < |jobs| ==> jobs[i].printJobId != jobs[j].printJobId)
    && (forall i, j :: 0 <= i < j < |jobs| ==> jobs[i].dedupKey != jobs[j].dedupKey)
    && (forall i :: 0 <= i < |jobs| ==> KeyOk(jobs[i]))
  }

  ghost predicate CopiesOk(jobs: Spool) {
    && (forall i :: 0 <= i < |jobs| && jobs[i].dedupKey.CopyKey? ==>
          Counts(jobs, jobs[i].dedupKey.originalJobId, jobs[i].dedupKey.sequence))
    && (forall i, n :: 0 <= i < |jobs| && 1 <= n <= jobs[i].secondCopyCount ==> HasCopy(jobs, jobs[i].printJobId, n))
  }

  ghost predicate Inv(jobs: Spool) {
    KeysOk(jobs) && CopiesOk(jobs) && forall i :: 0 <= i < |jobs| ==> JobOk(jobs[i])
  }

  // ---------- what the invariant says ----------

  /** The time from which a job may be claimed; `None` means at any time. */
  function ClaimableFrom(job: Job): Option<Time> {
    if job.status.Printing? then job.leaseExpiresAt else job.nextRetryAt
  }

  /** Every job that is not settled is claimable exactly from a known time on; a settled one never. */
  lemma UnsettledIsClaimable(job: Job, asOf: Time)
    requires JobOk(job)
    ensures Ready(job, asOf) <==> !Settled(job) && (ClaimableFrom(job).None? || ClaimableFrom(job).value <= asOf)
  {
  }

  /** The copies of a job are numbered exactly 1..secondCopyCount, each once, so the next number is free. */
  lemma CopiesNumbered(jobs: Spool, o: nat, n: nat)
    requires Inv(jobs) && o < |jobs|
    ensures HasCopy(jobs, jobs[o].printJobId, n) <==> 1 <= n <= jobs[o].secondCopyCount
    ensures FindKey(jobs, CopyKey(jobs[o].printJobId, jobs[o].secondCopyCount + 1)) == |jobs|
  {
    forall n: nat | HasCopy(jobs, jobs[o].printJobId, n) ensures 1 <= n <= jobs[o].secondCopyCount {
      var j :| 0 <= j < |jobs| && jobs[j].dedupKey == CopyKey(jobs[o].printJobId, n);
      assert Counts(jobs, jobs[j].dedupKey.originalJobId, n);
    }
    var k := FindKey(jobs, CopyKey(jobs[o].printJobId, jobs[o].secondCopyCount + 1));
    assert k < |jobs| ==> HasCopy(jobs, jobs[o].printJobId, jobs[o].secondCopyCount + 1);
  }

  // ---------- every operation keeps it ----------

  /** A change of the working columns only. */
  predicate SameTicket(a: Job, b: Job) {
    && a.printJobId == b.printJobId && a.dedupKey == b.dedupKey && a.ticketKind == b.ticketKind
    && a.sourceEntityId == b.sourceEntityId && a.setor == b.setor && a.payload == b.payload
    && a.secondCopyOfJobId == b.secondCopyOfJobId && a.secondCopyCount == b.secondCopyCount
  }

  lemma UpdateKeepsInv(jobs: Spool, k: nat, job: Job)
    requires Inv(jobs) && k < |jobs| && SameTicket(jobs[k], job) && JobOk(job)
    ensures Inv(jobs[k := job])
  {
    var next := jobs[k := job];
    forall i | 0 <= i < |next| && next[i].dedupKey.CopyKey?
      ensures Counts(next, next[i].dedupKey.originalJobId, next[i].dedupKey.sequence) {
      var o :| 0 <= o < |jobs| && jobs[o].printJobId == jobs[i].dedupKey.originalJobId
        && 1 <= jobs[i].dedupKey.sequence <= jobs[o].secondCopyCount;
      assert next[o].printJobId == jobs[o].printJobId;
    }
    forall i, n | 0 <= i < |next| && 1 <= n <= next[i].secondCopyCount ensures HasCopy(next, next[i].printJobId, n) {
      assert HasCopy(jobs, jobs[i].printJobId, n);
      var j :| 0 <= j < |jobs| && jobs[j].dedupKey == CopyKey(jobs[i].printJobId, n);
      assert next[j].dedupKey == jobs[j].dedupKey;
    }
  }

  lemma AppendKeepsKeys(jobs: Spool, job: Job)
    requires KeysOk(jobs) && KeyOk(job) && Unused(jobs, job.printJobId) && FindKey(jobs, job.dedupKey) == |jobs|
    ensures KeysOk(jobs + [job])
  {
  }

  lemma AppendProductionKeepsInv(jobs: Spool, job: Job)
    requires Inv(jobs) && Unused(jobs, job.printJobId) && JobOk(job) && KeyOk(job)
    requires job.dedupKey.ProductionKey? && job.secondCopyCount == 0
    ensures Inv(Enqueue(jobs, job))
  {
    if FindKey(jobs, job.dedupKey) == |jobs| {
      var next := jobs + [job];
      AppendKeepsKeys(jobs, job);
      forall i | 0 <= i < |next| && next[i].dedupKey.CopyKey?
        ensures Counts(next, next[i].dedupKey.originalJobId, next[i].dedupKey.sequence) {
        var o :| 0 <= o < |jobs| && jobs[o].printJobId == jobs[i].dedupKey.originalJobId
          && 1 <= jobs[i].dedupKey.sequence <= jobs[o].secondCopyCount;
        assert next[o] == jobs[o];
      }
      forall i, n | 0 <= i < |next| && 1 <= n <= next[i].secondCopyCount ensures HasCopy(next, next[i].printJobId, n) {
        assert HasCopy(jobs, jobs[i].printJobId, n);
        var j :| 0 <= j < |jobs| && jobs[j].dedupKey == CopyKey(jobs[i].printJobId, n);
        assert next[j] == jobs[j];
      }
    }
  }

  /** The spool after a reprint of job k: its count is one higher and the copy stands at the end. */
  ghost function Reprinted(jobs: Spool, k: nat, copyId: Id, at: Time): Spool
    requires k < |jobs|
  {
    jobs[k := jobs[k].(secondCopyCount := jobs[k].secondCopyCount + 1)] + [SecondCopy(jobs[k], copyId, at)]
  }

  lemma CountKeepsKeys(jobs: Spool, k: nat, counted: Job)
    requires KeysOk(jobs) && k < |jobs| && counted == jobs[k].(secondCopyCount := counted.secondCopyCount)
    ensures KeysOk(jobs[k := counted])
  {
    assert KeyOk(jobs[k]);
  }

  lemma ReprintKeepsKeys(jobs: Spool, k: nat, copyId: Id, at: Time)
    requires KeysOk(jobs) && k < |jobs| && Unused(jobs, copyId)
    requires FindKey(jobs, CopyKey(jobs[k].printJobId, jobs[k].secondCopyCount + 1)) == |jobs|
    ensures KeysOk(Reprinted(jobs, k, copyId, at))
  {
    var more := jobs[k].(secondCopyCount := jobs[k].secondCopyCount + 1);
    var counted, copy := jobs[k := more], SecondCopy(jobs[k], copyId, at);
    CountKeepsKeys(jobs, k, more);
    assert KeyOk(copy) && copy.printJobId == copyId && copy.dedupKey == CopyKey(jobs[k].printJobId, jobs[k].secondCopyCount + 1);
    assert Reprinted(jobs, k, copyId, at) == counted + [copy];
    hide SecondCopy, Reprinted, KeyOk;
    forall i | 0 <= i < |counted| ensures counted[i].dedupKey != copy.dedupKey && counted[i].printJobId != copyId {
      assert counted[i].dedupKey == jobs[i].dedupKey && counted[i].printJobId == jobs[i].printJobId;
    }
    assert FindKey(counted, copy.dedupKey) == |counted|;
    AppendKeepsKeys(counted, copy);
  }

  lemma ReprintKeepsCopies(jobs: Spool, k: nat, copyId: Id, at: Time)
    requires CopiesOk(jobs) && k < |jobs|
    ensures CopiesOk(Reprinted(jobs, k, copyId, at))
  {
    var next := Reprinted(jobs, k, copyId, at);
    assert forall i :: 0 <= i < |jobs| ==> next[i].printJobId == jobs[i].printJobId && next[i].dedupKey == jobs[i].dedupKey
                                           && next[i].secondCopyCount >= jobs[i].secondCopyCount;
    forall i | 0 <= i < |next| && next[i].dedupKey.CopyKey?
      ensures Counts(next, next[i].dedupKey.originalJobId, next[i].dedupKey.sequence) {
      if i == |jobs| {
        assert next[k].printJobId == jobs[k].printJobId;
      } else {
        var o :| 0 <= o < |jobs| && jobs[o].printJobId == jobs[i].dedupKey.originalJobId
          && 1 <= jobs[i].dedupKey.sequence <= jobs[o].secondCopyCount;
        assert next[o].printJobId == jobs[o].printJobId;
      }
    }
    forall i, n | 0 <= i < |next| && 1 <= n <= next[i].secondCopyCount ensures HasCopy(next, next[i].printJobId, n) {
      if i == k && n == jobs[k].secondCopyCount + 1 {
        assert next[|jobs|].dedupKey == CopyKey(jobs[k].printJobId, n);
      } else {
        assert HasCopy(jobs, jobs[i].printJobId, n);
        var j :| 0 <= j < |jobs| && jobs[j].dedupKey == CopyKey(jobs[i].printJobId, n);
        assert next[j].dedupKey == jobs[j].dedupKey;
      }
    }
  }

  lemma ReprintedIs(jobs: Spool, originalId: Id, copyId: Id, at: Time)
    requires var k := FindJob(jobs, originalId);
             k < |jobs| && FindKey(jobs, CopyKey(jobs[k].printJobId, jobs[k].secondCopyCount + 1)) == |jobs|
    ensures CreateSecondCopy(jobs, originalId, copyId, at) == Reprinted(jobs, FindJob(jobs, originalId), copyId, at)
  {
  }

  lemma ReprintKeepsJobs(jobs: Spool, k: nat, copyId: Id, at: Time)
    requires k < |jobs| && forall i :: 0 <= i < |jobs| ==> JobOk(jobs[i])
    ensures var after := Reprinted(jobs, k, copyId, at); forall i :: 0 <= i < |after| ==> JobOk(after[i])
  {
  }

  lemma ReprintKeepsInv(jobs: Spool, originalId: Id, copyId: Id, at: Time)
    requires Inv(jobs) && Unused(jobs, copyId)
    ensures Inv(CreateSecondCopy(jobs, originalId, copyId, at))
  {
    var k := FindJob(jobs, originalId);
    if k < |jobs| {
      CopiesNumbered(jobs, k, 0);
      hide KeysOk, CopiesOk, JobOk, CreateSecondCopy, Reprinted, Unused, FindJob, FindKey;
      ReprintKeepsKeys(jobs, k, copyId, at);
      ReprintKeepsCopies(jobs, k, copyId, at);
      ReprintKeepsJobs(jobs, k, copyId, at);
      ReprintedIs(jobs, originalId, copyId, at);
    }
  }

  lemma WorkKeepsInv(jobs: Spool, asOf: Time, lease: Time, outcome: Outcome)
    requires Inv(jobs)
    ensures Inv(Work(jobs, asOf, lease, outcome))
  {
    var k := FirstReady(jobs, asOf);
    if k < |jobs| {
      ProcessedOk(jobs[k], asOf, lease, outcome);
      UpdateKeepsInv(jobs, k, ProcessClaimedJob(Lease(jobs[k], lease), asOf, outcome));
    }
  }

  lemma FailureOk(job: Job, lease: Time, code: string, message: string, retryable: bool, asOf: Time)
    ensures var after := HandleDriverFailure(Lease(job, lease), code, message, retryable, asOf);
            JobOk(after) && SameTicket(job, after)
  {
  }

  lemma ProcessedOk(job: Job, asOf: Time, lease: Time, outcome: Outcome)
    requires JobOk(job)
    ensures var after := ProcessClaimedJob(Lease(job, lease), asOf, outcome);
            JobOk(after) && SameTicket(job, after)
  {
    var claimed := Lease(job, lease);
    if outcome.Crashed? || claimed.printerTargetName.None? || claimed.printerTargetName.value == "" || outcome.Printed? {
      hide HandleDriverFailure;
    } else {
      hide HandleDriverFailure, JobOk, SameTicket, Lease;
      match outcome
      case Offline => FailureOk(job, lease, "PRINTER_OFFLINE", OfflineMessage(claimed.printerTargetName.value), true, asOf);
      case Failed(code, message, retryable) => FailureOk(job, lease, code, message, retryable, asOf);
      case _ =>
    }
  }

  lemma {:induction false} TicketsKeepInv(jobs: Spool, request: Request, groups: seq<Group>, jobIds: seq<Id>, route: string -> Option<string>)
    requires Inv(jobs) && |groups| <= |jobIds|
    requires forall i :: 0 <= i < |jobIds| ==> Unused(jobs, jobIds[i])
    requires forall i, j :: 0 <= i < j < |jobIds| ==> jobIds[i] != jobIds[j]
    ensures var after := EnqueueGroups(jobs, request, groups, jobIds, route);
            && Inv(after) && forall i :: |groups| <= i < |jobIds| ==> Unused(after, jobIds[i])
    decreases groups
  {
    if groups != [] {
      var n := |groups| - 1;
      TicketsKeepInv(jobs, request, groups[..n], jobIds, route);
      var before := EnqueueGroups(jobs, request, groups[..n], jobIds, route);
      AppendProductionKeepsInv(before, ProductionJob(jobIds[n], request, groups[n], route));
    }
  }

  lemma StepKeepsInv(jobs: Spool, op: Operation)
    requires Inv(jobs) && FreshIds(jobs, op)
    ensures Inv(Step(jobs, op))
  {
    match op
    case Tickets(request, jobIds, route) => TicketsKeepInv(jobs, request, Groups(request.items), jobIds, route);
    case Worker(asOf, lease, outcome) => WorkKeepsInv(jobs, asOf, lease, outcome);
    case Requeue(jobId, at) =>
      var k := FindJob(jobs, jobId);
      if k < |jobs| {
        UpdateKeepsInv(jobs, k, Requeued(jobs[k], at));
      }
    case Reprint(originalId, copyId, at) => ReprintKeepsInv(jobs, originalId, copyId, at);
  }

  /** Every spool of every run from the empty one satisfies the invariant. */
  lemma {:induction false} ReachableSpool(trace: seq<Spool>, ops: seq<Operation>, i: nat)
    requires IsRun(trace, ops) && trace[0] == [] && i < |trace|
    ensures Inv(trace[i])
  {
    if i > 0 {
      ReachableSpool(trace, ops, i - 1);
      StepKeepsInv(trace[i - 1], ops[i - 1]);
    }
  }

  // ---------- dedup ----------

  lemma {:induction false} KeysStay(jobs: Spool, request: Request, groups: seq<Group>, jobIds: seq<Id>, route: string -> Option<string>)
    requires |groups| <= |jobIds|
    ensures var after := EnqueueGroups(jobs, request, groups, jobIds, route);
            && jobs <= after
            && forall i :: 0 <= i < |groups| ==>
                 FindKey(after, ProductionKey(request.sourceEntityId, request.batchId, groups[i].setor)) < |after|
    decreases groups
  {
    if groups != [] {
      var n := |groups| - 1;
      KeysStay(jobs, request, groups[..n], jobIds, route);
      var before := EnqueueGroups(jobs, request, groups[..n], jobIds, route);
      var after := EnqueueGroups(jobs, request, groups, jobIds, route);
      forall i | 0 <= i < |groups|
        ensures FindKey(after, ProductionKey(request.sourceEntityId, request.batchId, groups[i].setor)) < |after| {
        if i < n {
          var key := ProductionKey(request.sourceEntityId, request.batchId, groups[..n][i].setor);
          assert after[FindKey(before, key)].dedupKey == key;
        } else {
          var key := ProductionKey(request.sourceEntityId, request.batchId, groups[n].setor);
          assert after[if FindKey(before, key) < |before| then FindKey(before, key) else |before|].dedupKey == key;
        }
      }
    }
  }

  lemma {:induction false} NothingToEnqueue(jobs: Spool, request: Request, groups: seq<Group>, jobIds: seq<Id>, route: string -> Option<string>)
    requires |groups| <= |jobIds|
    requires forall i :: 0 <= i < |groups| ==>
               FindKey(jobs, ProductionKey(request.sourceEntityId, request.batchId, groups[i].setor)) < |jobs|
    ensures EnqueueGroups(jobs, request, groups, jobIds, route) == jobs
    decreases groups
  {
    if groups != [] {
      NothingToEnqueue(jobs, request, groups[..|groups| - 1], jobIds, route);
    }
  }

  /** Repeating a request, with new job ids and a new routing, creates nothing and reuses every job. */
  lemma RepeatedRequestCreatesNothing(jobs: Spool, request: Request, jobIds: seq<Id>, route: string -> Option<string>,
                                      jobIds2: seq<Id>, route2: string -> Option<string>)
    requires |Setores(request.items)| <= |jobIds| && |Setores(request.items)| <= |jobIds2|
    ensures var once := EnqueueTickets(jobs, request, jobIds, route);
            EnqueueTickets(once, request, jobIds2, route2) == once
  {
    KeysStay(jobs, request, Groups(request.items), jobIds, route);
    NothingToEnqueue(EnqueueTickets(jobs, request, jobIds, route), request, Groups(request.items), jobIds2, route2);
  }

  // ---------- bounded retries ----------

  /** A recorded attempt counts one, and leaves the job unclaimable at that time. */
  lemma RecordedAttempt(job: Job, asOf: Time, lease: Time, outcome: Outcome)
    requires !outcome.Crashed?
    ensures var after := ProcessClaimedJob(Lease(job, lease), asOf, outcome);
            && after.attempts == job.attempts + 1
            && !Ready(after, asOf)
            && (after.status.Done? || after.status.WaitingPrinter? || after.status.NeedsAttention?)
            && (after.attempts >= MAX_AUTOMATIC_ATTEMPTS ==> Settled(after))
  {
  }

  ghost predicate Bounded(jobs: Spool) {
    forall i :: 0 <= i < |jobs| ==> jobs[i].attempts <= 3 && (jobs[i].attempts == 3 ==> Settled(jobs[i]))
  }

  lemma {:induction false} NewTicketsBounded(jobs: Spool, request: Request, groups: seq<Group>, jobIds: seq<Id>, route: string -> Option<string>)
    requires Bounded(jobs) && |groups| <= |jobIds|
    ensures Bounded(EnqueueGroups(jobs, request, groups, jobIds, route))
    decreases groups
  {
    if groups != [] {
      NewTicketsBounded(jobs, request, groups[..|groups| - 1], jobIds, route);
    }
  }

  /** Without manual requeueing, every job settles within three recorded attempts, whatever else
      happens and however often the worker dies in between. */
  lemma {:induction false} SettlesWithinThreeAttempts(trace: seq<Spool>, ops: seq<Operation>, i: nat)
    requires IsRun(trace, ops) && trace[0] == [] && i < |trace|
    requires forall op :: op in ops ==> !op.Requeue?
    ensures Bounded(trace[i])
  {
    if i > 0 {
      SettlesWithinThreeAttempts(trace, ops, i - 1);
      assert ops[i - 1] in ops;
      BoundedStep(trace[i - 1], ops[i - 1]);
    }
  }

  lemma BoundedStep(jobs: Spool, op: Operation)
    requires Bounded(jobs) && FreshIds(jobs, op) && !op.Requeue?
    ensures Bounded(Step(jobs, op))
  {
    match op
    case Tickets(request, jobIds, route) =>
      hide EnqueueGroups, Bounded;
      NewTicketsBounded(jobs, request, Groups(request.items), jobIds, route);
    case Worker(asOf, lease, outcome) => BoundedWork(jobs, asOf, lease, outcome);
    case Reprint(originalId, copyId, at) =>
      hide FindKey;
  }

  lemma BoundedWork(jobs: Spool, asOf: Time, lease: Time, outcome: Outcome)
    requires Bounded(jobs)
    ensures Bounded(Work(jobs, asOf, lease, outcome))
  {
    var k := FirstReady(jobs, asOf);
    if k < |jobs| {
      assert Ready(jobs[k], asOf) && !Settled(jobs[k]);
      if outcome.Crashed? {
        hide HandleDriverFailure;
      } else {
        RecordedAttempt(jobs[k], asOf, lease, outcome);
        hide ProcessClaimedJob, Ready, Settled;
      }
    }
  }
}

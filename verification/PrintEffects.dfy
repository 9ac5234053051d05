/** How a print job ends, when it is tried again, and what a copy prints. */
module PrintEffects {
  import opened Wrappers
  import opened Rows
  import opened PrintSpool
  import PrintRuns

  predicate HasRoute(job: Job) {
    job.printerTargetName.Some? && job.printerTargetName.value != ""
  }

  /** A failure that may be tried again. */
  predicate Retryable(outcome: Outcome) {
    outcome.Offline? || (outcome.Failed? && outcome.retryable)
  }

  /** The working columns aside, the job is the same. */
  predicate SameTicket(job: Job, after: Job) {
    && after.printJobId == job.printJobId && after.sourceEntityId == job.sourceEntityId && after.setor == job.setor
    && after.ticketKind == job.ticketKind && after.dedupKey == job.dedupKey && after.printerTargetName == job.printerTargetName
    && after.secondCopyOfJobId == job.secondCopyOfJobId && after.payload == job.payload
    && after.secondCopyCount == job.secondCopyCount
  }

  /** The code under which a failed job is recorded. */
  function FailureCode(job: Job, outcome: Outcome): string
    requires !outcome.Crashed? && !(HasRoute(job) && outcome.Printed?)
  {
    if !HasRoute(job) then "PRINTER_ROUTE_MISSING" else if outcome.Offline? then "PRINTER_OFFLINE" else outcome.code
  }

  /** A job is DONE if and only if it has a route and the driver printed it. It waits for the printer if and
      only if it has a route, the failure is retryable and fewer than two attempts were recorded before. Any
      other failure needs attention, and a failure is recorded with its own code. The ticket never changes. */
  lemma OutcomeDecides(job: Job, asOf: Time, lease: Time, outcome: Outcome)
    requires !outcome.Crashed?
    ensures var after := ProcessClaimedJob(Lease(job, lease), asOf, outcome);
            && SameTicket(job, after) && after.attempts == job.attempts + 1 && after.leaseExpiresAt.None?
            && after.lastAttemptAt == Some(asOf)
            && (after.status.Done? <==> HasRoute(job) && outcome.Printed?)
            && (after.status.WaitingPrinter? <==> HasRoute(job) && Retryable(outcome) && job.attempts < 2)
            && (after.status.NeedsAttention? <==> !after.status.Done? && !after.status.WaitingPrinter?)
            && (after.status.Done? ==> after.printedAt == Some(asOf) && after.lastErrorCode.None? && after.lastErrorMessage.None?)
            && (!after.status.Done? ==>
                  && after.lastErrorCode == Some(FailureCode(job, outcome)) && after.printedAt.None?
                  && (HasRoute(job) && outcome.Failed? ==> after.lastErrorMessage == Some(outcome.message)))
  {
    hide OfflineMessage, ComputeRetryAt;
  }

  /** A waiting job is tried again from as many minutes later as attempts are recorded, any other never. */
  lemma RetriedLater(job: Job, asOf: Time, lease: Time, outcome: Outcome)
    requires !outcome.Crashed?
    ensures var after := ProcessClaimedJob(Lease(job, lease), asOf, outcome);
            forall s :: Ready(after, s) <==> after.status.WaitingPrinter? && s >= asOf + after.attempts * 60000
  {
    hide OfflineMessage;
  }

  /** A crash leaves the job leased, and it is ready again when the lease is over. */
  lemma CrashDecides(job: Job, asOf: Time, lease: Time)
    ensures var after := ProcessClaimedJob(Lease(job, lease), asOf, Crashed);
            SameTicket(job, after) && after.attempts == job.attempts && forall s :: Ready(after, s) <==> s >= lease
  {
  }

  /** A requeued job is the same ticket, ready at once and without its error. */
  lemma RequeueEffect(job: Job, at: Time)
    ensures var after := Requeued(job, at);
            && SameTicket(job, after) && after.attempts == job.attempts && after.printedAt == job.printedAt
            && after.lastErrorCode.None? && after.lastErrorMessage.None? && forall s :: Ready(after, s)
  {
  }

  /** A production job prints its group under its request's header, on its setor's printer, and is ready. */
  lemma TicketContents(jobId: Id, request: Request, group: Group, route: string -> Option<string>)
    ensures var job := ProductionJob(jobId, request, group, route);
            && job.printJobId == jobId && job.ticketKind.Producao? && job.setor == group.setor == job.payload.setor
            && job.printerTargetName == route(group.setor) && job.payload.items == group.items
            && job.payload.comandaNumero == request.comandaNumero && job.payload.mesaId == request.mesaId
            && job.payload.batchId == request.batchId && job.payload.requestedAt == request.requestedAt
            && job.dedupKey == ProductionKey(request.sourceEntityId, request.batchId, group.setor)
            && job.attempts == 0 && forall s :: Ready(job, s)
  {
  }

  /** The copy prints what the original prints: same lines, same header, same setor, same printer. */
  predicate CopyOf(copy: Job, original: Job) {
    && copy.ticketKind.SegundaVia? && copy.secondCopyOfJobId == Some(original.printJobId)
    && copy.setor == original.setor && copy.printerTargetName == original.printerTargetName
    && copy.payload.items == original.payload.items && copy.payload.setor == original.payload.setor
    && copy.payload.comandaNumero == original.payload.comandaNumero && copy.payload.mesaId == original.payload.mesaId
    && copy.payload.batchId == original.payload.batchId && copy.payload.requestedAt == original.payload.requestedAt
  }

  /** A reprint appends a copy of the original, ready at once, and counts it on the original alone. */
  lemma ReprintEffect(jobs: Spool, k: nat, copyId: Id, at: Time)
    requires PrintRuns.Inv(jobs) && PrintRuns.Unused(jobs, copyId) && k < |jobs|
    ensures var later := CreateSecondCopy(jobs, jobs[k].printJobId, copyId, at);
            && |later| == |jobs| + 1
            && later[|jobs|].printJobId == copyId && CopyOf(later[|jobs|], jobs[k]) && (forall s :: Ready(later[|jobs|], s))
            && later[|jobs|].payload.secondCopySequence == Some(jobs[k].secondCopyCount + 1)
            && later[|jobs|].payload.secondCopyQueuedAt == Some(at)
            && later[k] == jobs[k].(secondCopyCount := jobs[k].secondCopyCount + 1)
            && forall i :: 0 <= i < |jobs| && i != k ==> later[i] == jobs[i]
  {
    FindsJob(jobs, k);
    PrintRuns.CopiesNumbered(jobs, k, 0);
    hide PrintRuns.Inv, FindJob, FindKey;
  }

  lemma FindsJob(jobs: Spool, k: nat)
    requires PrintRuns.Inv(jobs) && k < |jobs|
    ensures FindJob(jobs, jobs[k].printJobId) == k
  {
    assert PrintRuns.KeysOk(jobs);
    hide PrintRuns.Inv;
    forall i | 0 <= i < k ensures jobs[i].printJobId != jobs[k].printJobId {
    }
  }
}

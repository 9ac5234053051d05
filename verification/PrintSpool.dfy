/** The persistent print queue: leases, bounded retries, dedup keys and second copies. */
module PrintSpool {
  import opened Wrappers
  import opened Rows
  import opened Comandas

  datatype JobStatus = Queued | Printing | WaitingPrinter | NeedsAttention | Done

  datatype TicketKind = Producao | SegundaVia

  /** `<source>:<batch>:<setor>:PRODUCAO` and `<job>:copy:<n>`. */
  datatype DedupKey =
    | ProductionKey(sourceEntityId: Id, batchId: Id, setor: string)
    | CopyKey(originalJobId: Id, sequence: nat)

  datatype TicketItem = TicketItem(itemId: Id, productLabel: string, quantity: real, note: Option<string>)

  datatype Payload = Payload(
    batchId: Id,
    setor: string,
    comandaNumero: string,
    mesaId: Option<string>,
    requestedAt: Time,
    items: seq<TicketItem>,
    secondCopySequence: Option<nat>,
    secondCopyQueuedAt: Option<Time>)

  datatype Job = Job(
    printJobId: Id,
    sourceEntityId: Id,
    setor: string,
    status: JobStatus,
    ticketKind: TicketKind,
    dedupKey: DedupKey,
    printerTargetName: Option<string>,
    secondCopyOfJobId: Option<Id>,
    payload: Payload,
    attempts: nat,
    secondCopyCount: nat,
    lastErrorCode: Option<string>,
    lastErrorMessage: Option<string>,
    nextRetryAt: Option<Time>,
    lastAttemptAt: Option<Time>,
    leaseExpiresAt: Option<Time>,
    printedAt: Option<Time>)

  /** The jobs in creation order. */
  type Spool = seq<Job>

  const MAX_AUTOMATIC_ATTEMPTS: nat := 3

  // ---------- lookups ----------

  function FindJob(jobs: Spool, id: Id): (k: nat)
    ensures k <= |jobs|
    ensures k < |jobs| ==> jobs[k].printJobId == id
    ensures forall i :: 0 <= i < k ==> jobs[i].printJobId != id
  {
    if jobs == [] || jobs[0].printJobId == id then 0 else 1 + FindJob(jobs[1..], id)
  }

  function FindKey(jobs: Spool, key: DedupKey): (k: nat)
    ensures k <= |jobs|
    ensures k < |jobs| ==> jobs[k].dedupKey == key
    ensures forall i :: 0 <= i < k ==> jobs[i].dedupKey != key
  {
    if jobs == [] || jobs[0].dedupKey == key then 0 else 1 + FindKey(jobs[1..], key)
  }

  /** The readiness condition of `claimNextReady`. */
  predicate Ready(job: Job, asOf: Time) {
    || ((job.status.Queued? || job.status.WaitingPrinter?) && (job.nextRetryAt.None? || job.nextRetryAt.value <= asOf))
    || (job.status.Printing? && job.leaseExpiresAt.Some? && job.leaseExpiresAt.value <= asOf)
  }

  function FirstReady(jobs: Spool, asOf: Time): (k: nat)
    ensures k <= |jobs|
    ensures k < |jobs| ==> Ready(jobs[k], asOf)
    ensures forall i :: 0 <= i < k ==> !Ready(jobs[i], asOf)
  {
    if jobs == [] || Ready(jobs[0], asOf) then 0 else 1 + FirstReady(jobs[1..], asOf)
  }

  // ---------- enqueueing ----------

  datatype RequestItem = RequestItem(itemId: Id, productLabel: string, quantity: real, setor: string, note: Option<string>)

  datatype Request = Request(
    sourceEntityId: Id,
    comandaNumero: string,
    mesaId: Option<string>,
    batchId: Id,
    requestedAt: Time,
    items: seq<RequestItem>)

  datatype Group = Group(setor: string, items: seq<TicketItem>)

  function SetorOf(item: RequestItem): Option<string> {
    Some(item.setor)
  }

  function TicketItemOf(item: RequestItem): TicketItem {
    TicketItem(item.itemId, item.productLabel, item.quantity, item.note)
  }

  function InSetor(setor: string): RequestItem -> Option<TicketItem> {
    (item: RequestItem) => if item.setor == setor then Some(TicketItemOf(item)) else None
  }

  /** The setores of a request in order of first appearance. */
  function Setores(items: seq<RequestItem>): seq<string> {
    FirstOccurrences(Collect(items, SetorOf))
  }

  /** `groupItemsBySetor`: one group a setor, items in request order. */
  function Groups(items: seq<RequestItem>): (groups: seq<Group>)
    ensures |groups| == |Setores(items)|
    ensures forall i :: 0 <= i < |groups| ==>
              groups[i] == Group(Setores(items)[i], Collect(items, InSetor(Setores(items)[i])))
  {
    var setores := Setores(items);
    seq(|setores|, i requires 0 <= i < |setores| => Group(setores[i], Collect(items, InSetor(setores[i]))))
  }

  lemma {:induction false} FirstOccurrencesMembers(xs: seq<string>)
    ensures forall y :: y in FirstOccurrences(xs) <==> y in xs
    ensures forall i, j :: 0 <= i < j < |FirstOccurrences(xs)| ==> FirstOccurrences(xs)[i] != FirstOccurrences(xs)[j]
  {
    if xs != [] {
      var front := xs[..|xs| - 1];
      FirstOccurrencesMembers(front);
      assert xs == front + [xs[|xs| - 1]];
    }
  }

  predicate DistinctSetores(groups: seq<Group>) {
    forall i, j :: 0 <= i < j < |groups| ==> groups[i].setor != groups[j].setor
  }

  /** No two groups of a request share a setor. */
  lemma GroupsDistinct(items: seq<RequestItem>)
    ensures DistinctSetores(Groups(items))
  {
    FirstOccurrencesMembers(Collect(items, SetorOf));
  }

  lemma SetoresAppend(items: seq<RequestItem>, item: RequestItem)
    ensures Setores(items + [item]) == if item.setor in Setores(items) then Setores(items) else Setores(items) + [item.setor]
  {
    CollectConcat(items, [item], SetorOf);
    assert [item][1..] == [];
    var all := Collect(items, SetorOf);
    assert Collect(items + [item], SetorOf) == all + [item.setor];
    assert (all + [item.setor])[..|all|] == all;
  }

  lemma GroupAppend(items: seq<RequestItem>, item: RequestItem, setor: string)
    ensures Collect(items + [item], InSetor(setor)) ==
            Collect(items, InSetor(setor)) + (if item.setor == setor then [TicketItemOf(item)] else [])
  {
    CollectConcat(items, [item], InSetor(setor));
    assert [item][1..] == [];
  }

  function Lookup(grouped: map<string, seq<TicketItem>>, setor: string): seq<TicketItem> {
    if setor in grouped then grouped[setor] else []
  }

  lemma NothingGrouped(items: seq<RequestItem>)
    ensures Setores(items[..0]) == [] && forall s :: Lookup(map[], s) == Collect(items[..0], InSetor(s))
  {
  }

  /** The Map of `groupItemsBySetor`, filled item by item. */
  method GroupItemsBySetor(items: seq<RequestItem>) returns (groups: seq<Group>)
    ensures groups == Groups(items)
  {
    var order: seq<string> := [];
    var grouped: map<string, seq<TicketItem>> := map[];
    NothingGrouped(items);
    hide Setores, InSetor, Collect, TicketItemOf;
    for n := 0 to |items|
      invariant order == Setores(items[..n])
      invariant forall s :: s in grouped <==> s in order
      invariant forall s :: Lookup(grouped, s) == Collect(items[..n], InSetor(s))
    {
      var item := items[n];
      assert items[..n + 1] == items[..n] + [item];
      SetoresAppend(items[..n], item);
      GroupsAppend(items[..n], item, grouped);
      if item.setor !in grouped {
        order := order + [item.setor];
      }
      grouped := grouped[item.setor := Lookup(grouped, item.setor) + [TicketItemOf(item)]];
    }
    assert items[..|items|] == items;
    groups := seq(|order|, i requires 0 <= i < |order| => Group(order[i], Lookup(grouped, order[i])));
  }

  lemma GroupsAppend(items: seq<RequestItem>, item: RequestItem, grouped: map<string, seq<TicketItem>>)
    requires forall s :: Lookup(grouped, s) == Collect(items, InSetor(s))
    ensures var next := grouped[item.setor := Lookup(grouped, item.setor) + [TicketItemOf(item)]];
            forall s :: Lookup(next, s) == Collect(items + [item], InSetor(s))
  {
    hide Collect, TicketItemOf, InSetor;
    var next := grouped[item.setor := Lookup(grouped, item.setor) + [TicketItemOf(item)]];
    forall s ensures Lookup(next, s) == Collect(items + [item], InSetor(s)) {
      GroupAppend(items, item, s);
      assert Lookup(grouped, s) == Collect(items, InSetor(s));
    }
  }

  function ProductionJob(jobId: Id, request: Request, group: Group, route: string -> Option<string>): Job {
    Job(jobId, request.sourceEntityId, group.setor, Queued, Producao,
        ProductionKey(request.sourceEntityId, request.batchId, group.setor), route(group.setor), None,
        Payload(request.batchId, group.setor, request.comandaNumero, request.mesaId, request.requestedAt, group.items, None, None),
        0, 0, None, None, None, None, None, None)
  }

  /** The spool's `enqueue`: a job whose key is already there is not inserted. */
  function Enqueue(jobs: Spool, job: Job): Spool {
    if FindKey(jobs, job.dedupKey) < |jobs| then jobs else jobs + [job]
  }

  function GroupKey(request: Request, group: Group): DedupKey {
    ProductionKey(request.sourceEntityId, request.batchId, group.setor)
  }

  /** The jobs already there under the groups' keys, in group order. */
  function ReusedJobs(jobs: Spool, request: Request, groups: seq<Group>): seq<Job> {
    if groups == [] then []
    else
      var n := |groups| - 1;
      var k := FindKey(jobs, GroupKey(request, groups[n]));
      ReusedJobs(jobs, request, groups[..n]) + (if k < |jobs| then [jobs[k]] else [])
  }

  /** One job a group; the i-th group's job takes the i-th generated id. */
  function EnqueueGroups(jobs: Spool, request: Request, groups: seq<Group>, jobIds: seq<Id>, route: string -> Option<string>): Spool
    requires |groups| <= |jobIds|
  {
    if groups == [] then jobs
    else
      var n := |groups| - 1;
      Enqueue(EnqueueGroups(jobs, request, groups[..n], jobIds, route), ProductionJob(jobIds[n], request, groups[n], route))
  }

  function EnqueueTickets(jobs: Spool, request: Request, jobIds: seq<Id>, route: string -> Option<string>): Spool
    requires |Setores(request.items)| <= |jobIds|
  {
    EnqueueGroups(jobs, request, Groups(request.items), jobIds, route)
  }

  // ---------- second copies ----------

  function SecondCopy(original: Job, copyId: Id, queuedAt: Time): Job {
    var sequence := original.secondCopyCount + 1;
    Job(copyId, original.sourceEntityId, original.setor, Queued, SegundaVia, CopyKey(original.printJobId, sequence),
        original.printerTargetName, Some(original.printJobId),
        original.payload.(secondCopySequence := Some(sequence), secondCopyQueuedAt := Some(queuedAt)),
        0, 0, None, None, None, None, None, None)
  }

  /** The transaction of `createSecondCopy`; a missing original throws and leaves the spool alone. */
  function CreateSecondCopy(jobs: Spool, originalId: Id, copyId: Id, queuedAt: Time): Spool {
    var k := FindJob(jobs, originalId);
    if k == |jobs| then jobs
    else
      var with := Enqueue(jobs, SecondCopy(jobs[k], copyId, queuedAt));
      with[k := jobs[k].(secondCopyCount := jobs[k].secondCopyCount + 1)]
  }

  // ---------- the worker ----------

  /** How one claimed job ends: the driver's answers, or the process dying before one is recorded. */
  datatype Outcome =
    | Printed
    | Offline
    | Failed(code: string, message: string, retryable: bool)
    | Crashed

  function Lease(job: Job, leaseExpiresAt: Time): Job {
    job.(status := Printing, leaseExpiresAt := Some(leaseExpiresAt))
  }

  /** `computeRetryAt`: one more minute for every attempt, at most fifteen. */
  function ComputeRetryAt(asOf: Time, attempts: nat): Time {
    asOf + (if attempts + 1 < 15 then attempts + 1 else 15) * 60000
  }

  function HandleDriverFailure(claimed: Job, code: string, message: string, retryable: bool, asOf: Time): Job {
    var retry := retryable && claimed.attempts + 1 < MAX_AUTOMATIC_ATTEMPTS;
    claimed.(status := if retry then WaitingPrinter else NeedsAttention, attempts := claimed.attempts + 1,
             lastAttemptAt := Some(asOf), leaseExpiresAt := None, lastErrorCode := Some(code),
             lastErrorMessage := Some(message),
             nextRetryAt := if retry then Some(ComputeRetryAt(asOf, claimed.attempts)) else None, printedAt := None)
  }

  function OfflineMessage(printer: string): string {
    "Impressora " + printer + " indisponivel no Windows."
  }

  /** `#processClaimedJob`. */
  function ProcessClaimedJob(claimed: Job, asOf: Time, outcome: Outcome): Job {
    if outcome.Crashed? then claimed
    else if claimed.printerTargetName.None? || claimed.printerTargetName.value == "" then
      claimed.(status := NeedsAttention, attempts := claimed.attempts + 1, lastAttemptAt := Some(asOf),
               leaseExpiresAt := None, lastErrorCode := Some("PRINTER_ROUTE_MISSING"),
               lastErrorMessage := Some("Setor sem impressora configurada para impressao."),
               nextRetryAt := None, printedAt := None)
    else
      match outcome
      case Offline => HandleDriverFailure(claimed, "PRINTER_OFFLINE", OfflineMessage(claimed.printerTargetName.value), true, asOf)
      case Printed =>
        claimed.(status := Done, attempts := claimed.attempts + 1, lastAttemptAt := Some(asOf), leaseExpiresAt := None,
                 lastErrorCode := None, lastErrorMessage := None, nextRetryAt := None, printedAt := Some(asOf))
      case Failed(code, message, retryable) => HandleDriverFailure(claimed, code, message, retryable, asOf)
      case Crashed => claimed
  }

  function Work(jobs: Spool, asOf: Time, leaseExpiresAt: Time, outcome: Outcome): Spool {
    var k := FirstReady(jobs, asOf);
    if k == |jobs| then jobs else jobs[k := ProcessClaimedJob(Lease(jobs[k], leaseExpiresAt), asOf, outcome)]
  }

  function Requeued(job: Job, requestedAt: Time): Job {
    job.(status := Queued, lastAttemptAt := Some(requestedAt), leaseExpiresAt := None, lastErrorCode := None,
         lastErrorMessage := None, nextRetryAt := None)
  }

  /** `reprocessJob`: any existing job, whatever its status, goes back to the queue. */
  function Reprocess(jobs: Spool, jobId: Id, requestedAt: Time): Spool {
    var k := FindJob(jobs, jobId);
    if k == |jobs| then jobs else jobs[k := Requeued(jobs[k], requestedAt)]
  }
}

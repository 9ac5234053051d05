/** Every sent item stands on exactly one production ticket, over every run of service calls. */
module PdvTickets {
  import opened Wrappers
  import opened Rows
  import opened Comandas
  import opened PrintSpool
  import opened PdvBooks
  import opened PdvRuns
  import ComandaRuns
  import PrintRuns

  // ---------- the invariant ----------

  function TicketOf(item: Item): TicketItem {
    TicketItem(item.itemId, item.productLabel, item.quantity, item.note)
  }

  function LineKey(line: TicketItem): Id { line.itemId }
  function RequestKey(item: RequestItem): Id { item.itemId }

  ghost predicate HasItem(items: seq<Item>, itemId: Id, batchId: Id, setor: string) {
    exists x :: x in items && x.itemId == itemId && x.productionBatchId == Some(batchId) && x.setor == setor
  }

  /** Each line of a production ticket is an item of its comanda, of its batch and of its setor. */
  ghost predicate Sourced(comandas: map<Id, Comanda>, job: Job) {
    job.dedupKey.ProductionKey? ==>
      && DistinctBy(job.payload.items, LineKey)
      && forall line :: line in job.payload.items ==>
           && job.dedupKey.sourceEntityId in comandas
           && HasItem(comandas[job.dedupKey.sourceEntityId].items, line.itemId, job.dedupKey.batchId, job.dedupKey.setor)
  }

  /** An item with a batch is a line of the ticket of that batch and of the item's setor. */
  ghost predicate Ticketed(jobs: Spool, comandaId: Id, x: Item) {
    x.productionBatchId.Some? ==>
      exists j :: 0 <= j < |jobs| && jobs[j].dedupKey == ProductionKey(comandaId, x.productionBatchId.value, x.setor)
                  && TicketOf(x) in jobs[j].payload.items
  }

  ghost predicate AllTicketed(jobs: Spool, id: Id, items: seq<Item>) {
    forall x :: x in items ==> Ticketed(jobs, id, x)
  }

  ghost predicate TicketsOk(comandas: map<Id, Comanda>, jobs: Spool) {
    && (forall j :: 0 <= j < |jobs| ==> Sourced(comandas, jobs[j]))
    && (forall id :: id in comandas ==> AllTicketed(jobs, id, comandas[id].items))
  }

  // ---------- what the invariant says ----------

  /** The job prints the item on a production ticket. */
  ghost predicate Prints(job: Job, itemId: Id) {
    job.ticketKind.Producao? && exists line :: line in job.payload.items && line.itemId == itemId
  }

  lemma PrintedFor(comandas: map<Id, Comanda>, issued: map<Id, Id>, jobs: Spool, id: Id, x: Item, j: nat)
    requires ComandasOk(comandas, issued) && SpoolOk(jobs, issued) && TicketsOk(comandas, jobs)
    requires id in comandas && x in comandas[id].items && j < |jobs| && Prints(jobs[j], x.itemId)
    ensures x.productionBatchId.Some? && jobs[j].dedupKey == ProductionKey(id, x.productionBatchId.value, x.setor)
  {
    assert PrintRuns.KeyOk(jobs[j]) && Sourced(comandas, jobs[j]);
    hide ComandaRuns.Inv, PrintRuns.Inv, TicketsOk;
    var line :| line in jobs[j].payload.items && line.itemId == x.itemId;
    var key := jobs[j].dedupKey;
    assert ComandaOk(comandas[key.sourceEntityId], key.sourceEntityId, issued) && ComandaOk(comandas[id], id, issued);
    var y :| y in comandas[key.sourceEntityId].items && y.itemId == x.itemId
      && y.productionBatchId == Some(key.batchId) && y.setor == key.setor;
    assert OwnedBy(issued, y.itemId, key.sourceEntityId) && OwnedBy(issued, x.itemId, id);
    assert x == y by { DistinctItems(comandas[id]); SameKey(comandas[id].items, x, y, ItemKey); }
  }

  lemma DistinctItems(c: Comanda)
    requires ComandaRuns.Inv(c)
    ensures DistinctBy(c.items, ItemKey)
  {
  }

  lemma DistinctKeys(jobs: Spool, i: nat, j: nat)
    requires PrintRuns.Inv(jobs) && i < |jobs| && j < |jobs| && jobs[i].dedupKey == jobs[j].dedupKey
    ensures i == j && PrintRuns.KeyOk(jobs[i])
  {
    assert PrintRuns.KeysOk(jobs);
    hide PrintRuns.Inv;
  }

  /** An item that was sent is printed by exactly one job of the spool, once, with its label, quantity
      and note; the job's key names the item's comanda, batch and setor. An item never sent is
      printed by none. */
  lemma OnExactlyOneTicket(comandas: map<Id, Comanda>, issued: map<Id, Id>, jobs: Spool, id: Id, x: Item) returns (j: nat)
    requires ComandasOk(comandas, issued) && SpoolOk(jobs, issued) && TicketsOk(comandas, jobs)
    requires id in comandas && x in comandas[id].items
    ensures x.productionBatchId.None? ==> forall i :: 0 <= i < |jobs| ==> !Prints(jobs[i], x.itemId)
    ensures x.productionBatchId.Some? ==>
              && j < |jobs| && jobs[j].dedupKey == ProductionKey(id, x.productionBatchId.value, x.setor)
              && jobs[j].setor == x.setor
              && TicketOf(x) in jobs[j].payload.items && DistinctBy(jobs[j].payload.items, LineKey)
              && forall i :: 0 <= i < |jobs| ==> (Prints(jobs[i], x.itemId) <==> i == j)
  {
    j := 0;
    if x.productionBatchId.Some? {
      assert Ticketed(jobs, id, x);
      j :| 0 <= j < |jobs| && jobs[j].dedupKey == ProductionKey(id, x.productionBatchId.value, x.setor)
        && TicketOf(x) in jobs[j].payload.items;
      DistinctKeys(jobs, j, j);
      assert Sourced(comandas, jobs[j]);
    }
    hide ComandasOk, TicketsOk, SpoolOk, Ticketed, Sourced;
    forall i: nat | i < |jobs| && Prints(jobs[i], x.itemId) ensures x.productionBatchId.Some? && i == j {
      PrintedFor(comandas, issued, jobs, id, x, i);
      assert PrintRuns.Inv(jobs) by { SpoolInv(jobs, issued); }
      DistinctKeys(jobs, i, j);
    }
  }

  lemma SpoolInv(jobs: Spool, issued: map<Id, Id>)
    requires SpoolOk(jobs, issued)
    ensures PrintRuns.Inv(jobs)
  {
  }

  // ---------- changes of a comanda ----------

  /** Whatever grows keeps the lines already printed sourced. */
  lemma GrownStaysSourced(comandas: map<Id, Comanda>, id: Id, after: Comanda, added: Option<Id>, sent: Option<Id>, job: Job)
    requires Sourced(comandas, job)
    requires id in comandas ==> ItemsGrow(comandas[id].items, after.items, added, sent)
    ensures Sourced(comandas[id := after], job)
  {
    if job.dedupKey.ProductionKey? {
      var key := job.dedupKey;
      forall line | line in job.payload.items
        ensures key.sourceEntityId in comandas[id := after]
                && HasItem(comandas[id := after][key.sourceEntityId].items, line.itemId, key.batchId, key.setor) {
        var y :| y in comandas[key.sourceEntityId].items && y.itemId == line.itemId
          && y.productionBatchId == Some(key.batchId) && y.setor == key.setor;
        if key.sourceEntityId == id {
          assert HasSuccessor(y, after.items, sent);
        }
      }
    }
  }

  /** Items that gain no batch keep their tickets. */
  lemma GrownStaysTicketed(jobs: Spool, id: Id, before: seq<Item>, after: seq<Item>, added: Option<Id>)
    requires AllTicketed(jobs, id, before) && ItemsGrow(before, after, added, None)
    ensures AllTicketed(jobs, id, after)
  {
    forall x | x in after ensures Ticketed(jobs, id, x) {
      if HasAncestor(x, before, None) {
        var y :| y in before && Successor(y, x, None);
        assert Ticketed(jobs, id, y);
      }
    }
  }

  lemma ComandaGrown(comandas: map<Id, Comanda>, jobs: Spool, id: Id, after: Comanda, added: Option<Id>)
    requires TicketsOk(comandas, jobs)
    requires if id in comandas then ItemsGrow(comandas[id].items, after.items, added, None) else after.items == []
    ensures TicketsOk(comandas[id := after], jobs)
  {
    hide ItemsGrow, Sourced;
    forall j | 0 <= j < |jobs| ensures Sourced(comandas[id := after], jobs[j]) {
      GrownStaysSourced(comandas, id, after, added, None, jobs[j]);
    }
    if id in comandas {
      GrownStaysTicketed(jobs, id, comandas[id].items, after.items, added);
    }
  }

  // ---------- changes of the spool ----------

  /** The tickets there stay there; what is new is a second copy. */
  ghost predicate TicketsKept(jobs: Spool, later: Spool) {
    && |jobs| <= |later|
    && (forall j :: 0 <= j < |jobs| ==> later[j].dedupKey == jobs[j].dedupKey && later[j].payload == jobs[j].payload)
    && (forall j :: |jobs| <= j < |later| ==> later[j].dedupKey.CopyKey?)
  }

  lemma TicketedStays(jobs: Spool, later: Spool, id: Id, x: Item)
    requires Ticketed(jobs, id, x) && |jobs| <= |later|
    requires forall j :: 0 <= j < |jobs| ==> later[j].dedupKey == jobs[j].dedupKey && later[j].payload == jobs[j].payload
    ensures Ticketed(later, id, x)
  {
    if x.productionBatchId.Some? {
      var j :| 0 <= j < |jobs| && jobs[j].dedupKey == ProductionKey(id, x.productionBatchId.value, x.setor)
        && TicketOf(x) in jobs[j].payload.items;
      assert later[j].dedupKey == jobs[j].dedupKey;
    }
  }

  lemma SpoolWorked(comandas: map<Id, Comanda>, jobs: Spool, later: Spool)
    requires TicketsOk(comandas, jobs) && TicketsKept(jobs, later)
    ensures TicketsOk(comandas, later)
  {
    forall j | 0 <= j < |later| ensures Sourced(comandas, later[j]) {
      assert j < |jobs| ==> Sourced(comandas, jobs[j]);
    }
    forall id, x | id in comandas && x in comandas[id].items ensures Ticketed(later, id, x) {
      assert AllTicketed(jobs, id, comandas[id].items);
      TicketedStays(jobs, later, id, x);
    }
  }

  lemma WorkKeepsTickets(jobs: Spool, work: PrintRuns.Operation)
    requires PrintRuns.Inv(jobs) && !work.Tickets?
    ensures var later := match work
              case Worker(asOf, lease, outcome) => Work(jobs, asOf, lease, outcome)
              case Requeue(jobId, at) => Reprocess(jobs, jobId, at)
              case Reprint(originalId, copyId, at) => CreateSecondCopy(jobs, originalId, copyId, at);
            TicketsKept(jobs, later)
  {
    hide ProcessClaimedJob, SecondCopy;
    match work
    case Worker(asOf, lease, outcome) =>
      var k := FirstReady(jobs, asOf);
      if k < |jobs| {
        assert PrintRuns.JobOk(jobs[k]);
        PrintRuns.ProcessedOk(jobs[k], asOf, lease, outcome);
      }
    case Requeue(jobId, at) =>
    case Reprint(originalId, copyId, at) => ReprintKeepsTickets(jobs, originalId, copyId, at);
  }

  lemma ReprintKeepsTickets(jobs: Spool, originalId: Id, copyId: Id, at: Time)
    ensures TicketsKept(jobs, CreateSecondCopy(jobs, originalId, copyId, at))
  {
  }

  // ---------- a send ----------

  /** A key of a batch the spool has never seen. */
  ghost predicate NewBatch(jobs: Spool, batchId: Id) {
    forall j :: 0 <= j < |jobs| && jobs[j].dedupKey.ProductionKey? ==> jobs[j].dedupKey.batchId != batchId
  }

  /** For a new batch every group gets its own job. */
  lemma {:induction false} AllEnqueued(jobs: Spool, request: Request, groups: seq<Group>, jobIds: seq<Id>, route: string -> Option<string>)
    requires |groups| <= |jobIds| && NewBatch(jobs, request.batchId) && DistinctSetores(groups)
    ensures var later := EnqueueGroups(jobs, request, groups, jobIds, route);
            && |later| == |jobs| + |groups| && jobs <= later
            && forall i :: 0 <= i < |groups| ==> later[|jobs| + i] == ProductionJob(jobIds[i], request, groups[i], route)
    decreases groups
  {
    if groups != [] {
      var n := |groups| - 1;
      AllEnqueued(jobs, request, groups[..n], jobIds, route);
      var before := EnqueueGroups(jobs, request, groups[..n], jobIds, route);
      var job := ProductionJob(jobIds[n], request, groups[n], route);
      forall k | 0 <= k < |before| ensures before[k].dedupKey != job.dedupKey {
        if k < |jobs| {
          assert before[k] == jobs[k];
        } else {
          assert before[|jobs| + (k - |jobs|)] == ProductionJob(jobIds[k - |jobs|], request, groups[k - |jobs|], route);
        }
      }
      assert FindKey(before, job.dedupKey) == |before|;
    }
  }

  lemma ItemLineUp(items: seq<Item>, batchId: Id, x: Item)
    requires x in items && x.productionBatchId == Some(batchId) && x.status.Enviado?
    ensures var lines := Collect(items, BatchItem(batchId));
            x.setor in Setores(lines) && TicketOf(x) in Collect(lines, InSetor(x.setor))
  {
    var lines := Collect(items, BatchItem(batchId));
    var line := RequestItem(x.itemId, x.productLabel, x.quantity, x.setor, x.note);
    CollectMembers(items, BatchItem(batchId), line);
    CollectMembers(lines, SetorOf, x.setor);
    FirstOccurrencesMembers(Collect(lines, SetorOf));
    CollectMembers(lines, InSetor(x.setor), TicketOf(x));
  }

  lemma LineFromItem(items: seq<Item>, batchId: Id, setor: string, t: TicketItem)
    requires t in Collect(Collect(items, BatchItem(batchId)), InSetor(setor))
    ensures HasItem(items, t.itemId, batchId, setor)
  {
    var lines := Collect(items, BatchItem(batchId));
    CollectMembers(lines, InSetor(setor), t);
    var line :| line in lines && InSetor(setor)(line) == Some(t);
    CollectMembers(items, BatchItem(batchId), line);
    var x :| x in items && BatchItem(batchId)(x) == Some(line);
  }

  lemma LinesDistinct(items: seq<Item>, batchId: Id, setor: string)
    requires DistinctBy(items, ItemKey)
    ensures DistinctBy(Collect(Collect(items, BatchItem(batchId)), InSetor(setor)), LineKey)
  {
    CollectDistinct(items, BatchItem(batchId), ItemKey, RequestKey);
    CollectDistinct(Collect(items, BatchItem(batchId)), InSetor(setor), RequestKey, LineKey);
  }

  /** The jobs a send adds: one for each setor, with exactly the lines of that setor. */
  ghost predicate Enqueued(jobs: Spool, id: Id, batchId: Id, lines: seq<RequestItem>, later: Spool) {
    && |later| == |jobs| + |Setores(lines)| && jobs <= later
    && forall i :: |jobs| <= i < |later| ==> TicketJob(later[i], id, batchId, lines, Setores(lines)[i - |jobs|])
  }

  ghost predicate TicketJob(job: Job, id: Id, batchId: Id, lines: seq<RequestItem>, setor: string) {
    job.dedupKey == ProductionKey(id, batchId, setor) && job.payload.items == Collect(lines, InSetor(setor))
  }

  lemma SendEnqueues(jobs: Spool, comanda: Comanda, batch: ProductionBatch, jobIds: seq<Id>, route: string -> Option<string>)
    requires NewBatch(jobs, batch.batchId)
    requires |Setores(BatchItems(comanda, batch.batchId))| <= |jobIds|
    ensures Enqueued(jobs, comanda.comandaId, batch.batchId, BatchItems(comanda, batch.batchId),
                     EnqueueTickets(jobs, TicketRequest(comanda, batch), jobIds, route))
  {
    var request := TicketRequest(comanda, batch);
    var later := EnqueueTickets(jobs, request, jobIds, route);
    var groups := Groups(request.items);
    FirstOccurrencesMembers(Collect(request.items, SetorOf));
    AllEnqueued(jobs, request, groups, jobIds, route);
    forall i | |jobs| <= i < |later|
      ensures TicketJob(later[i], comanda.comandaId, batch.batchId, request.items, Setores(request.items)[i - |jobs|]) {
      assert later[|jobs| + (i - |jobs|)] == ProductionJob(jobIds[i - |jobs|], request, groups[i - |jobs|], route);
    }
  }

  /** Sending a comanda and enqueueing its tickets in one transaction keeps every item on its ticket. */
  lemma SendKeepsTickets(comandas: map<Id, Comanda>, jobs: Spool, id: Id, after: Comanda, batch: ProductionBatch,
                         jobIds: seq<Id>, route: string -> Option<string>)
    requires TicketsOk(comandas, jobs) && id in comandas && after.comandaId == id && NewBatch(jobs, batch.batchId)
    requires ItemsGrow(comandas[id].items, after.items, None, Some(batch.batchId)) && DistinctBy(after.items, ItemKey)
    requires forall x :: x in after.items && x.productionBatchId == Some(batch.batchId) ==> x.status.Enviado?
    requires |Setores(BatchItems(after, batch.batchId))| <= |jobIds|
    ensures TicketsOk(comandas[id := after], EnqueueTickets(jobs, TicketRequest(after, batch), jobIds, route))
  {
    var later, lines := EnqueueTickets(jobs, TicketRequest(after, batch), jobIds, route), BatchItems(after, batch.batchId);
    SendEnqueues(jobs, after, batch, jobIds, route);
    hide EnqueueTickets, Setores, Sourced, Ticketed;
    forall j | 0 <= j < |later| ensures Sourced(comandas[id := after], later[j]) {
      if j < |jobs| {
        GrownStaysSourced(comandas, id, after, None, Some(batch.batchId), jobs[j]);
      } else {
        NewJobSourced(comandas, id, after, batch.batchId, Setores(lines)[j - |jobs|], later[j]);
      }
    }
    forall k, x | k in comandas[id := after] && x in comandas[id := after][k].items ensures Ticketed(later, k, x) {
      if k == id && x.productionBatchId == Some(batch.batchId) {
        NewItemTicketed(jobs, id, after.items, batch.batchId, later, x);
      } else {
        OldItemTicketed(jobs, k, comandas[k].items, batch.batchId, later, x, k == id);
      }
    }
  }

  lemma NewJobSourced(comandas: map<Id, Comanda>, id: Id, after: Comanda, batchId: Id, setor: string, job: Job)
    requires DistinctBy(after.items, ItemKey) && TicketJob(job, id, batchId, BatchItems(after, batchId), setor)
    ensures Sourced(comandas[id := after], job)
  {
    LinesDistinct(after.items, batchId, setor);
    forall t | t in job.payload.items ensures HasItem(after.items, t.itemId, batchId, setor) {
      LineFromItem(after.items, batchId, setor, t);
    }
  }

  lemma NewItemTicketed(jobs: Spool, id: Id, items: seq<Item>, batchId: Id, later: Spool, x: Item)
    requires x in items && x.productionBatchId == Some(batchId) && x.status.Enviado?
    requires Enqueued(jobs, id, batchId, Collect(items, BatchItem(batchId)), later)
    ensures Ticketed(later, id, x)
  {
    var setores := Setores(Collect(items, BatchItem(batchId)));
    ItemLineUp(items, batchId, x);
    hide Setores;
    var i :| 0 <= i < |setores| && setores[i] == x.setor;
    assert later[|jobs| + i].dedupKey == ProductionKey(id, batchId, x.setor);
  }

  /** An item of another comanda, or one that had its batch before. */
  lemma OldItemTicketed(jobs: Spool, id: Id, before: seq<Item>, batchId: Id, later: Spool, x: Item, grown: bool)
    requires AllTicketed(jobs, id, before) && jobs <= later
    requires if grown then HasAncestor(x, before, Some(batchId)) || x.productionBatchId.None? else x in before
    requires grown ==> x.productionBatchId != Some(batchId)
    ensures Ticketed(later, id, x)
  {
    if x.productionBatchId.Some? {
      var y := x;
      if grown {
        y :| y in before && Successor(y, x, Some(batchId));
      }
      assert Ticketed(jobs, id, y);
      TicketedStays(jobs, later, id, y);
    }
  }

  // ---------- the batch and its tickets ----------

  function LineId(item: RequestItem): Option<Id> {
    Some(item.itemId)
  }

  /** The lines of a send are its pending items, in order. */
  lemma {:induction false} LinesOfPending(items: seq<Item>, batchId: Id, at: Time)
    requires forall x :: x in items ==> x.productionBatchId != Some(batchId)
    ensures var lines := Collect(SendAll(items, batchId, at), BatchItem(batchId));
            Collect(lines, SetorOf) == Collect(items, PendingSetor) && Collect(lines, LineId) == Collect(items, PendingId)
  {
    if items != [] {
      var sent, head := SendAll(items, batchId, at), MarkSent(items[0], batchId, at);
      assert sent[0] == head && sent[1..] == SendAll(items[1..], batchId, at);
      assert items[0] in items;
      LinesOfPending(items[1..], batchId, at);
      var rest := Collect(sent[1..], BatchItem(batchId));
      if items[0].status.Lancado? {
        var line := BatchItem(batchId)(head).value;
        assert Collect(sent, BatchItem(batchId)) == [line] + rest;
        assert ([line] + rest)[1..] == rest;
      } else {
        assert Collect(sent, BatchItem(batchId)) == [] + rest;
        assert [] + rest == rest;
      }
    }
  }

  /** A send's batch lists exactly the items on its tickets, and names their setores in ticket order. */
  lemma TicketsMatchBatch(c: Comanda, batchId: Id, at: Time)
    requires ComandaRuns.Inv(c) && FindBatch(c.productionBatches, batchId) == |c.productionBatches|
    requires SendComandaToProduction(c, batchId, at).Ok?
    ensures var mutation := SendComandaToProduction(c, batchId, at).value;
            && mutation.productionBatch.Some?
            && mutation.productionBatch.value.setores == Setores(BatchItems(mutation.comanda, batchId))
            && mutation.productionBatch.value.sentItemIds == Collect(BatchItems(mutation.comanda, batchId), LineId)
  {
    forall x | x in c.items ensures x.productionBatchId != Some(batchId) {
      assert x.productionBatchId.Some? ==> ComandaRuns.Listed(c.productionBatches, x.productionBatchId.value, x.itemId);
    }
    LinesOfPending(c.items, batchId, at);
  }
}

/** From the order to the ticket: what was ordered stays on the comanda through every run of calls, and a
    send prints it, as ordered, on exactly one ticket. */
module PdvOrders {
  import opened Wrappers
  import opened Rows
  import opened Text
  import opened Comandas
  import opened PrintSpool
  import opened PdvBooks
  import opened PdvRuns
  import opened PdvTickets
  import opened ComandaEffects
  import PdvSafety
  import ComandaRuns
  import PrintRuns
  import PrintEffects

  // ---------- the order ----------

  function Adding(o: Order, at: Time): ComandaRuns.Operation {
    ComandaRuns.Add(o.itemId, o.produtoId, o.productLabel, o.setor, o.quantity, o.unitPriceCents, o.note, at)
  }

  /** The order can be taken: the comanda is open and the order is complete. */
  predicate Takes(comandas: map<Id, Comanda>, id: Id, o: Order) {
    && id in comandas && (comandas[id].status.Aberta? || comandas[id].status.EmProducao?)
    && o.quantity > 0.0 && o.unitPriceCents >= 0
    && Trim(o.produtoId) != [] && Trim(o.productLabel) != [] && Trim(o.setor) != []
  }

  ghost predicate HasOrdered(comandas: map<Id, Comanda>, id: Id, o: Order) {
    id in comandas && exists x :: x in comandas[id].items && IsOrdered(x, o)
  }

  /** The item of the order waits to be sent. */
  ghost predicate HasPending(comandas: map<Id, Comanda>, id: Id, o: Order) {
    id in comandas && exists x :: x in comandas[id].items && IsOrdered(x, o) && x.status.Lancado?
  }

  /** The order's item is stored and pending. */
  lemma OrderTaken(b: Books, id: Id, o: Order, at: Time)
    requires PdvSafety.Inv(b) && Fresh(b, ComandaCall(id, Adding(o, at))) && Takes(b.comandas, id, o)
    ensures Offered(b, ComandaCall(id, Adding(o, at)))
    ensures HasPending(Step(b, ComandaCall(id, Adding(o, at)), true).comandas, id, o)
    ensures HasOrdered(Step(b, ComandaCall(id, Adding(o, at)), true).comandas, id, o)
  {
    hide Trim, Fresh, Minted, Reload, PdvSafety.Inv, IsOrdered;
    var call, loaded := ComandaCall(id, Adding(o, at)), Reload(b.comandas[id]);
    AddEffect(loaded, o, at);
    LoadedStatus(b.comandas[id]);
    assert ComandaRuns.Apply(loaded, Adding(o, at)) == ComandaEffects.Add(loaded, o, at);
    var after := ComandaEffects.Add(loaded, o, at).value.comanda;
    assert after.items[|loaded.items|] in after.items;
    assert Step(b, call, true).comandas[id] == after;
  }

  lemma LoadedStatus(c: Comanda)
    ensures Reload(c).status == c.status && Reload(c).numero == c.numero && Reload(c).mesaId == c.mesaId
    ensures Reload(c).productionBatches == c.productionBatches && Reload(c).comandaId == c.comandaId
  {
  }

  // ---------- it stays ordered ----------

  lemma SuccessorOrdered(y: Item, x: Item, sent: Option<Id>, o: Order)
    requires Successor(y, x, sent) && IsOrdered(y, o)
    ensures IsOrdered(x, o)
  {
  }

  lemma GrownKeepsOrder(before: seq<Item>, after: seq<Item>, added: Option<Id>, sent: Option<Id>, o: Order)
    requires ItemsGrow(before, after, added, sent) && exists y :: y in before && IsOrdered(y, o)
    ensures exists x :: x in after && IsOrdered(x, o)
  {
    var y :| y in before && IsOrdered(y, o);
    assert HasSuccessor(y, after, sent);
    var x :| x in after && Successor(y, x, sent);
    SuccessorOrdered(y, x, sent, o);
  }

  lemma ChangeKeepsOrder(b: Books, id: Id, change: ComandaRuns.Operation, later: map<Id, Id>, k: Id, o: Order)
    requires PdvSafety.Inv(b) && id in b.comandas && Mints(b.issued, later, id, change) && OnePayment(change) && !change.Store?
    requires HasOrdered(b.comandas, k, o)
    ensures HasOrdered(b.comandas[id := Changed(b.comandas[id], change)], k, o)
  {
    hide PdvSafety.Inv, ComandaRuns.Inv, Changed, Mints, IsOrdered, ItemsGrow, ComandaOk;
    if k == id {
      StoredOk(b, id);
      ChangedOk(b.comandas[id], id, b.issued, later, change);
      GrownKeepsOrder(b.comandas[id].items, Changed(b.comandas[id], change).items, AddedItem(change), SentBatch(change), o);
    }
  }

  lemma StoredOk(b: Books, id: Id)
    requires PdvSafety.Inv(b) && id in b.comandas
    ensures ComandaOk(b.comandas[id], id, b.issued) && ComandaRuns.Inv(b.comandas[id])
  {
    PdvSafety.TicketsInBooks(b);
    hide PdvSafety.Inv, ComandaRuns.Inv;
  }

  /** What each call leaves of the comandas: all of them, or one changed or added. */
  lemma StepKeepsOrder(b: Books, call: Call, commits: bool, k: Id, o: Order)
    requires PdvSafety.Inv(b) && Offered(b, call) && Fresh(b, call) && HasOrdered(b.comandas, k, o)
    ensures HasOrdered(Step(b, call, commits).comandas, k, o)
  {
    hide PdvSafety.Inv, Fresh, Minted, Changed, Accepted, HasOrdered, Mints, IsOrdered, EnqueueTickets, Setores;
    var later := b.issued + Minted(b, call);
    match call
    case OpenComandaCall(id, _, _, _, _) => OpenKeepsOrder(b, call, k, o);
    case ComandaCall(id, change) =>
      PdvSafety.ComandaMints(b, call, later);
      if id in b.comandas { ChangeKeepsOrder(b, id, change, later, k, o); }
    case SendCall(id, batchId, at, _, _) =>
      PdvSafety.SendMints(b, call, later);
      if id in b.comandas { ChangeKeepsOrder(b, id, ComandaRuns.Send(batchId, at), later, k, o); }
    case PaymentCall(id, _, _, _, _, _, _) =>
      PdvSafety.PaymentMints(b, call, later);
      if id in b.comandas { ChangeKeepsOrder(b, id, CheckoutOf(call), later, k, o); }
    case _ =>
  }

  lemma OpenKeepsOrder(b: Books, call: Call, k: Id, o: Order)
    requires PdvSafety.Inv(b) && call.OpenComandaCall? && Fresh(b, call) && HasOrdered(b.comandas, k, o)
    ensures HasOrdered(OpenComandaStep(b, call).comandas, k, o)
  {
    hide PdvSafety.Inv, IsOrdered, OpenComanda, Fresh;
    OpenedIsNew(b, call);
  }

  lemma OpenedIsNew(b: Books, call: Call)
    requires PdvSafety.Inv(b) && call.OpenComandaCall? && Fresh(b, call)
    ensures call.comandaId !in b.comandas
  {
    PdvSafety.TicketsInBooks(b);
    hide PdvSafety.Inv, ComandaOk;
    assert call.comandaId in Minted(b, call);
    PdvSafety.UnknownComanda(b.comandas, b.issued, call.comandaId);
  }

  // ---------- opening a comanda ----------

  /** The number is visible and free: every comanda under it is settled or cancelled. */
  ghost predicate Opens(b: Books, call: Call)
    requires call.OpenComandaCall?
  {
    && Trim(call.numero) != []
    && forall id :: id in b.comandas && b.comandas[id].numero == Trim(call.numero) ==>
         b.comandas[id].status.Encerrada? || b.comandas[id].status.Cancelada?
  }

  /** A comanda is opened if and only if its number is visible and free. It is stored open and empty under the
      trimmed number, table and owner given, and the other comandas stay as they were. */
  lemma OpenExact(b: Books, call: Call)
    requires PdvSafety.Inv(b) && call.OpenComandaCall? && Fresh(b, call)
    ensures var later := OpenComandaStep(b, call);
            && (call.comandaId in later.comandas <==> Opens(b, call))
            && (!Opens(b, call) ==> later == b)
            && (Opens(b, call) ==>
                  var c := later.comandas[call.comandaId];
                  && later == b.(comandas := b.comandas[call.comandaId := c])
                  && c.numero == Trim(call.numero) && c.status.Aberta? && c.openedAt == call.at && c.items == [] && c.payments == []
                  && c.mesaId == NormalizeNullable(call.mesaId) && c.currentOwnerUserId == NormalizeNullable(call.owner))
  {
    hide PdvSafety.Inv, Trim, NormalizeNullable, CalculateComandaTotals, Fresh;
    OpenedIsNew(b, call);
    TrimTwice(call.numero);
  }

  /** In every later state of every run the comanda still has the item, as it was ordered. */
  lemma {:induction false} OrderedForever(trace: seq<Books>, calls: seq<Call>, n: nat, m: nat, id: Id, o: Order)
    requires IsRun(trace, calls) && n <= m < |trace| && HasOrdered(trace[n].comandas, id, o)
    ensures HasOrdered(trace[m].comandas, id, o)
    decreases m
  {
    hide PdvSafety.Inv, Step, Offered, Fresh, HasOrdered;
    if n < m {
      OrderedForever(trace, calls, n, m - 1, id, o);
      PdvSafety.ReachableBooks(trace, calls, m - 1);
      assert Steps(trace[m - 1], calls[m - 1], trace[m]);
      StepKeepsOrder(trace[m - 1], calls[m - 1], true, id, o);
      StepKeepsOrder(trace[m - 1], calls[m - 1], false, id, o);
    }
  }

  // ---------- from order to ticket ----------

  /** The line a ticket should show for an order. */
  function OrderedLine(o: Order): TicketItem {
    TicketItem(o.itemId, Trim(o.productLabel), o.quantity, NormalizeNullable(o.note))
  }

  /** Job j alone prints the order, once, as ordered and for the setor ordered. */
  ghost predicate OnTicket(jobs: Spool, j: nat, id: Id, batchId: Id, o: Order) {
    && j < |jobs| && jobs[j].ticketKind.Producao? && jobs[j].setor == Trim(o.setor)
    && jobs[j].dedupKey == ProductionKey(id, batchId, Trim(o.setor))
    && OrderedLine(o) in jobs[j].payload.items && DistinctBy(jobs[j].payload.items, LineKey)
    && forall i :: 0 <= i < |jobs| ==> (Prints(jobs[i], o.itemId) <==> i == j)
  }

  /** An order taken in a run is, in every later state, an item of its comanda as it was ordered. Once that
      item has a batch, exactly one production job prints it: under its comanda and batch, for the setor
      ordered, with the label, quantity and note ordered. Before that no job does. */
  lemma OrderOnOneTicket(trace: seq<Books>, calls: seq<Call>, n: nat, m: nat, id: Id, o: Order, at: Time)
      returns (x: Item, j: nat)
    requires IsRun(trace, calls) && n < m < |trace| && calls[n] == ComandaCall(id, Adding(o, at))
    requires Takes(trace[n].comandas, id, o) && Fresh(trace[n], calls[n]) && Offered(trace[n], calls[n])
    requires trace[n + 1] == Step(trace[n], calls[n], true)
    ensures id in trace[m].comandas && x in trace[m].comandas[id].items && IsOrdered(x, o)
    ensures x.productionBatchId.Some? ==> OnTicket(trace[m].jobs, j, id, x.productionBatchId.value, o)
    ensures x.productionBatchId.None? ==> forall i :: 0 <= i < |trace[m].jobs| ==> !Prints(trace[m].jobs[i], o.itemId)
  {
    hide PdvSafety.Inv, Step, Fresh, Offered, Takes, OnTicket, IsOrdered, Prints, IsRun;
    PdvSafety.ReachableBooks(trace, calls, n);
    PdvSafety.ReachableBooks(trace, calls, m);
    OrderTaken(trace[n], id, o, at);
    OrderedForever(trace, calls, n + 1, m, id, o);
    x :| x in trace[m].comandas[id].items && IsOrdered(x, o);
    j := TicketIn(trace[m], id, x, o);
  }

  lemma TicketIn(b: Books, id: Id, x: Item, o: Order) returns (j: nat)
    requires PdvSafety.Inv(b) && id in b.comandas && x in b.comandas[id].items && IsOrdered(x, o)
    ensures x.productionBatchId.Some? ==> OnTicket(b.jobs, j, id, x.productionBatchId.value, o)
    ensures x.productionBatchId.None? ==> forall i :: 0 <= i < |b.jobs| ==> !Prints(b.jobs[i], o.itemId)
  {
    hide PdvSafety.Inv, ComandasOk, SpoolOk, TicketsOk, Trim, NormalizeNullable;
    PdvSafety.TicketsInBooks(b);
    j := OnExactlyOneTicket(b.comandas, b.issued, b.jobs, id, x);
  }

  // ---------- a send ----------

  /** A send is accepted while the comanda is open and the order pending. */
  lemma SendTaken(b: Books, call: Call, o: Order)
    requires PdvSafety.Inv(b) && call.SendCall? && Fresh(b, call) && HasPending(b.comandas, call.comandaId, o)
    requires b.comandas[call.comandaId].status.Aberta? || b.comandas[call.comandaId].status.EmProducao?
    ensures var send := ComandaRuns.Send(call.batchId, call.at); Accepted(b.comandas[call.comandaId], send)
    ensures var later := Step(b, call, true);
            && call.comandaId in later.comandas
            && exists y :: y in later.comandas[call.comandaId].items && IsOrdered(y, o) && y.productionBatchId == Some(call.batchId)
  {
    hide PdvSafety.Inv, ComandaRuns.Inv, Fresh, Minted, ComandaOk, EnqueueTickets, Setores, Reload, IsOrdered, SendComandaToProduction;
    var c := b.comandas[call.comandaId];
    StoredOk(b, call.comandaId);
    NewBatchId(b, call);
    PdvSafety.BatchUnknown(c, call.comandaId, b.issued, call.batchId);
    LoadedStatus(c);
    PendingSent(c, call.batchId, call.at, o);
  }

  /** Sending the reloaded comanda gives the order its batch. */
  lemma PendingSent(c: Comanda, batchId: Id, at: Time, o: Order)
    requires ComandaRuns.Inv(c) && FindBatch(c.productionBatches, batchId) == |c.productionBatches|
    requires (c.status.Aberta? || c.status.EmProducao?) && exists x :: x in c.items && IsOrdered(x, o) && x.status.Lancado?
    ensures var r := SendComandaToProduction(Reload(c), batchId, at);
            && r.Ok?
            && exists y :: y in r.value.comanda.items && IsOrdered(y, o) && y.productionBatchId == Some(batchId)
  {
    assert ComandaRuns.Storable(c);
    hide ComandaRuns.Inv, Reload, SendComandaToProduction, FindBatch, Trim, NormalizeNullable, Subtotal;
    ComandaRuns.ReloadKeepsRowsOf(c);
    LoadedStatus(c);
    var x :| x in c.items && IsOrdered(x, o) && x.status.Lancado?;
    PermutationMembers(c.items, Reload(c).items);
    var i := IndexOf(Reload(c).items, x);
    SendEffect(Reload(c), batchId, at);
    var sent := SendComandaToProduction(Reload(c), batchId, at).value.comanda;
    assert sent.items[i] in sent.items && IsOrdered(sent.items[i], o);
  }

  lemma NewBatchId(b: Books, call: Call)
    requires call.SendCall? && Fresh(b, call)
    ensures call.batchId !in b.issued
  {
    hide Setores, BatchItems, SentOut;
    assert call.batchId in Minted(b, call);
  }

  /** The header of a ticket: the comanda's number and table, the time of the send, its setor's printer. */
  ghost predicate Headed(job: Job, c: Comanda, at: Time, route: string -> Option<string>) {
    && job.payload.comandaNumero == c.numero && job.payload.mesaId == c.mesaId && job.payload.requestedAt == at
    && job.printerTargetName == route(job.setor) && job.payload.setor == job.setor && forall s :: PrintSpool.Ready(job, s)
  }

  lemma NewJobsHeaded(jobs: Spool, comanda: Comanda, batch: ProductionBatch, jobIds: seq<Id>, route: string -> Option<string>, j: nat)
    requires NewBatch(jobs, batch.batchId) && |Setores(TicketRequest(comanda, batch).items)| <= |jobIds|
    requires var later := EnqueueTickets(jobs, TicketRequest(comanda, batch), jobIds, route);
             j < |later| && later[j].dedupKey.ProductionKey? && later[j].dedupKey.batchId == batch.batchId
    ensures Headed(EnqueueTickets(jobs, TicketRequest(comanda, batch), jobIds, route)[j], comanda, batch.sentAt, route)
  {
    var request := TicketRequest(comanda, batch);
    var groups := Groups(request.items);
    GroupsDistinct(request.items);
    hide Groups, Setores, BatchItems, EnqueueGroups, ProductionJob, PrintSpool.Ready;
    AllEnqueued(jobs, request, groups, jobIds, route);
    var later := EnqueueGroups(jobs, request, groups, jobIds, route);
    forall i | 0 <= i < |jobs| ensures later[i] == jobs[i] {
    }
    var i := j - |jobs|;
    assert later[|jobs| + i] == ProductionJob(jobIds[i], request, groups[i], route);
    PrintEffects.TicketContents(jobIds[i], request, groups[i], route);
  }

  lemma SentHeaded(b: Books, call: Call, j: nat)
    requires PdvSafety.Inv(b) && call.SendCall? && Fresh(b, call) && call.comandaId in b.comandas
    requires Accepted(b.comandas[call.comandaId], ComandaRuns.Send(call.batchId, call.at))
    requires var later := Step(b, call, true).jobs;
             j < |later| && later[j].dedupKey.ProductionKey? && later[j].dedupKey.batchId == call.batchId
    ensures Headed(Step(b, call, true).jobs[j], b.comandas[call.comandaId], call.at, call.route)
  {
    hide PdvSafety.Inv, Fresh, EnqueueTickets, Setores, TicketRequest, Headed, ComandaRuns.Inv, ComandaOk, SpoolOk, NewBatch, Minted;
    var c := b.comandas[call.comandaId];
    NewBatchId(b, call);
    StoredOk(b, call.comandaId);
    PdvSafety.TicketsInBooks(b);
    PdvSafety.BatchUnknown(c, call.comandaId, b.issued, call.batchId);
    PdvSafety.BatchIsNew(b.jobs, b.issued, call.batchId);
    LoadedStatus(c);
    SentData(c, call.batchId, call.at);
    PdvSafety.SendAccepted(b, call);
    var mutation := ComandaRuns.Apply(Reload(c), ComandaRuns.Send(call.batchId, call.at)).value;
    NewJobsHeaded(b.jobs, mutation.comanda, mutation.productionBatch.value, call.jobIds, call.route, j);
    SameHeader(Step(b, call, true).jobs[j], mutation.comanda, c, call.at, call.route);
  }

  lemma SameHeader(job: Job, sent: Comanda, c: Comanda, at: Time, route: string -> Option<string>)
    requires Headed(job, sent, at, route) && sent.numero == c.numero && sent.mesaId == c.mesaId
    ensures Headed(job, c, at, route)
  {
  }

  lemma SentData(c: Comanda, batchId: Id, at: Time)
    requires SendComandaToProduction(Reload(c), batchId, at).Ok? && FindBatch(c.productionBatches, batchId) == |c.productionBatches|
    ensures var mutation := SendComandaToProduction(Reload(c), batchId, at).value;
            && mutation.comanda.numero == c.numero && mutation.comanda.mesaId == c.mesaId
            && mutation.productionBatch.Some? && mutation.productionBatch.value.batchId == batchId
            && mutation.productionBatch.value.sentAt == at
  {
    LoadedStatus(c);
    hide Reload, FirstOccurrences, FindBatch;
  }

  /** An order taken and then sent: exactly one production job prints it, for the setor ordered, with the
      label, quantity and note ordered, under the comanda's number and table, on the setor's printer. */
  lemma OrderThenSend(b: Books, o: Order, at: Time, call: Call) returns (j: nat)
    requires PdvSafety.Inv(b) && call.SendCall? && Takes(b.comandas, call.comandaId, o)
    requires Fresh(b, ComandaCall(call.comandaId, Adding(o, at)))
    ensures Offered(b, ComandaCall(call.comandaId, Adding(o, at)))
    ensures var ordered := Step(b, ComandaCall(call.comandaId, Adding(o, at)), true);
            Fresh(ordered, call) ==>
              && Accepted(ordered.comandas[call.comandaId], ComandaRuns.Send(call.batchId, call.at))
              && var jobs := Step(ordered, call, true).jobs;
                 && OnTicket(jobs, j, call.comandaId, call.batchId, o)
                 && Headed(jobs[j], b.comandas[call.comandaId], call.at, call.route)
  {
    hide PdvSafety.Inv, Fresh, Step, Trim, OnTicket, Headed, HasPending, HasOrdered, Accepted, IsOrdered, Effect;
    j := 0;
    var id, add := call.comandaId, ComandaCall(call.comandaId, Adding(o, at));
    OrderTaken(b, id, o, at);
    OrderKeepsHeader(b, id, o, at);
    var ordered := Step(b, add, true);
    PdvSafety.StepKeepsInv(b, add, true);
    if Fresh(ordered, call) {
      j := SentOnTicket(ordered, call, o);
      SameHeader(Step(ordered, call, true).jobs[j], ordered.comandas[id], b.comandas[id], call.at, call.route);
    }
  }

  lemma OrderKeepsHeader(b: Books, id: Id, o: Order, at: Time)
    requires PdvSafety.Inv(b) && Fresh(b, ComandaCall(id, Adding(o, at))) && Takes(b.comandas, id, o)
    ensures var later := Step(b, ComandaCall(id, Adding(o, at)), true);
            && id in later.comandas && later.comandas[id].numero == b.comandas[id].numero
            && later.comandas[id].mesaId == b.comandas[id].mesaId && later.comandas[id].status == b.comandas[id].status
  {
    hide Trim, Fresh, Minted, Reload, PdvSafety.Inv, IsOrdered;
    AddEffect(Reload(b.comandas[id]), o, at);
    LoadedStatus(b.comandas[id]);
    assert ComandaRuns.Apply(Reload(b.comandas[id]), Adding(o, at)) == ComandaEffects.Add(Reload(b.comandas[id]), o, at);
  }

  lemma SentOnTicket(b: Books, call: Call, o: Order) returns (j: nat)
    requires PdvSafety.Inv(b) && call.SendCall? && Fresh(b, call) && HasPending(b.comandas, call.comandaId, o)
    requires b.comandas[call.comandaId].status.Aberta? || b.comandas[call.comandaId].status.EmProducao?
    ensures Accepted(b.comandas[call.comandaId], ComandaRuns.Send(call.batchId, call.at))
    ensures var jobs := Step(b, call, true).jobs;
            && j < |jobs| && OnTicket(jobs, j, call.comandaId, call.batchId, o)
            && Headed(jobs[j], b.comandas[call.comandaId], call.at, call.route)
  {
    hide PdvSafety.Inv, Fresh, Step, Headed, IsOrdered, Effect, Prints, DistinctBy, Trim, NormalizeNullable, Accepted;
    SendTaken(b, call, o);
    PdvSafety.StepKeepsInv(b, call, true);
    var later := Step(b, call, true);
    var y :| y in later.comandas[call.comandaId].items && IsOrdered(y, o) && y.productionBatchId == Some(call.batchId);
    j := TicketIn(later, call.comandaId, y, o);
    SentHeaded(b, call, j);
  }
}

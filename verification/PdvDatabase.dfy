/** The tables behind the point of sale on one connection, and the transactions of its service calls as
    callbacks: one statement an upsert or insert, a save's transaction nested in the call's. */
module PdvDatabase {
  import opened Wrappers
  import opened Rows
  import opened Tables
  import opened Comandas
  import opened Cash
  import opened PrintSpool
  import opened Transactions
  import ComandaStore
  import CashStore

  datatype Database = Database(comandas: ComandaStore.ComandaTables, cash: CashStore.CashTables, jobs: Spool)

  type Update = Database -> Database

  // ---------- statements ----------

  function UpsertComanda(comanda: Comanda): Update {
    (d: Database) =>
      d.(comandas := d.comandas.(comandas := d.comandas.comandas[comanda.comandaId := ComandaStore.ComandaRowOf(comanda)]))
  }

  function UpsertItem(owner: Id, item: Item): Update {
    (d: Database) =>
      d.(comandas := d.comandas.(items := Upsert(d.comandas.items, owner, ItemKey(item), item, ComandaStore.MergeItem)))
  }

  function UpsertPayment(owner: Id, payment: Payment): Update {
    (d: Database) =>
      d.(comandas := d.comandas.(payments :=
        Upsert(d.comandas.payments, owner, PaymentKey(payment), payment, ComandaStore.MergePayment)))
  }

  function UpsertPreConta(owner: Id, row: ComandaStore.PreContaRow): Update {
    (d: Database) =>
      d.(comandas := d.comandas.(preContas :=
        Upsert(d.comandas.preContas, owner, ComandaStore.PreContaRowKey(row), row, ComandaStore.MergePreConta)))
  }

  function UpsertSession(session: Session): Update {
    (d: Database) =>
      d.(cash := d.cash.(sessions := d.cash.sessions[session.cashSessionId := CashStore.SessionRowOf(session)]))
  }

  function UpsertMovement(owner: Id, movement: Movement): Update {
    (d: Database) =>
      d.(cash := d.cash.(movements := Upsert(d.cash.movements, owner, MovementKey(movement), movement, CashStore.MergeMovement)))
  }

  /** The spool's `enqueue`. */
  function InsertJob(job: Job): Update {
    (d: Database) => d.(jobs := Enqueue(d.jobs, job))
  }

  // ---------- the statements of a loop ----------

  function UpsertItems(owner: Id, items: seq<Item>): seq<Update> {
    if items == [] then [] else UpsertItems(owner, items[..|items| - 1]) + [UpsertItem(owner, items[|items| - 1])]
  }

  function UpsertPayments(owner: Id, payments: seq<Payment>): seq<Update> {
    if payments == [] then []
    else UpsertPayments(owner, payments[..|payments| - 1]) + [UpsertPayment(owner, payments[|payments| - 1])]
  }

  function UpsertPreContas(owner: Id, rows: seq<ComandaStore.PreContaRow>): seq<Update> {
    if rows == [] then [] else UpsertPreContas(owner, rows[..|rows| - 1]) + [UpsertPreConta(owner, rows[|rows| - 1])]
  }

  function UpsertMovements(owner: Id, movements: seq<Movement>): seq<Update> {
    if movements == [] then []
    else UpsertMovements(owner, movements[..|movements| - 1]) + [UpsertMovement(owner, movements[|movements| - 1])]
  }

  /** `enqueueProductionTickets`: one lookup and insert a group. */
  function InsertJobs(request: Request, groups: seq<Group>, jobIds: seq<Id>, route: string -> Option<string>): seq<Update>
    requires |groups| <= |jobIds|
  {
    if groups == [] then []
    else
      var n := |groups| - 1;
      InsertJobs(request, groups[..n], jobIds, route) + [InsertJob(ProductionJob(jobIds[n], request, groups[n], route))]
  }

  // ---------- the transactions ----------

  /** `saveAggregate` of a comanda. */
  function SaveComanda(comanda: Comanda): Callback<Database> {
    Transaction(
      Sequence(Write(UpsertComanda(comanda)),
               Sequence(Each(UpsertItems(comanda.comandaId, comanda.items)),
                        Sequence(Each(UpsertPayments(comanda.comandaId, comanda.payments)),
                                 Each(UpsertPreContas(comanda.comandaId, ComandaStore.PreContaRows(comanda.preContas)))))),
      true)
  }

  /** `saveAggregate` of a cash session. */
  function SaveSession(session: Session): Callback<Database> {
    Transaction(Sequence(Write(UpsertSession(session)), Each(UpsertMovements(session.cashSessionId, session.movements))), true)
  }

  /** The transaction of `sendComandaToProduction`: the comanda, then the jobs of its batch. */
  function SaveAndEnqueue(comanda: Comanda, request: Request, jobIds: seq<Id>, route: string -> Option<string>): Callback<Database>
    requires |Setores(request.items)| <= |jobIds|
  {
    Transaction(Sequence(SaveComanda(comanda), Each(InsertJobs(request, Groups(request.items), jobIds, route))), true)
  }

  /** The transaction of `confirmComandaPayment`: the comanda, then the drawer. */
  function SaveBoth(comanda: Comanda, session: Session): Callback<Database> {
    Transaction(Sequence(SaveComanda(comanda), SaveSession(session)), true)
  }

  // ---------- what they come to ----------

  lemma FoldOne<DB>(updates: seq<DB -> DB>, update: DB -> DB, d: DB)
    ensures Fold(updates + [update], d) == update(Fold(updates, d))
  {
    assert (updates + [update])[..|updates|] == updates;
  }

  lemma {:induction false} ItemsUpserted(owner: Id, items: seq<Item>, d: Database)
    ensures Fold(UpsertItems(owner, items), d) ==
            d.(comandas := d.comandas.(items := UpsertAll(d.comandas.items, owner, items, ItemKey, ComandaStore.MergeItem)))
  {
    if items != [] {
      var front, last := items[..|items| - 1], items[|items| - 1];
      ItemsUpserted(owner, front, d);
      FoldOne(UpsertItems(owner, front), UpsertItem(owner, last), d);
    }
  }

  lemma {:induction false} PaymentsUpserted(owner: Id, payments: seq<Payment>, d: Database)
    ensures Fold(UpsertPayments(owner, payments), d) ==
            d.(comandas := d.comandas.(payments :=
              UpsertAll(d.comandas.payments, owner, payments, PaymentKey, ComandaStore.MergePayment)))
  {
    if payments != [] {
      var front, last := payments[..|payments| - 1], payments[|payments| - 1];
      PaymentsUpserted(owner, front, d);
      FoldOne(UpsertPayments(owner, front), UpsertPayment(owner, last), d);
    }
  }

  lemma {:induction false} PreContasUpserted(owner: Id, rows: seq<ComandaStore.PreContaRow>, d: Database)
    ensures Fold(UpsertPreContas(owner, rows), d) ==
            d.(comandas := d.comandas.(preContas :=
              UpsertAll(d.comandas.preContas, owner, rows, ComandaStore.PreContaRowKey, ComandaStore.MergePreConta)))
  {
    if rows != [] {
      var front, last := rows[..|rows| - 1], rows[|rows| - 1];
      PreContasUpserted(owner, front, d);
      FoldOne(UpsertPreContas(owner, front), UpsertPreConta(owner, last), d);
    }
  }

  lemma {:induction false} MovementsUpserted(owner: Id, movements: seq<Movement>, d: Database)
    ensures Fold(UpsertMovements(owner, movements), d) ==
            d.(cash := d.cash.(movements := UpsertAll(d.cash.movements, owner, movements, MovementKey, CashStore.MergeMovement)))
  {
    if movements != [] {
      var front, last := movements[..|movements| - 1], movements[|movements| - 1];
      MovementsUpserted(owner, front, d);
      FoldOne(UpsertMovements(owner, front), UpsertMovement(owner, last), d);
    }
  }

  lemma {:induction false} JobsInserted(request: Request, groups: seq<Group>, jobIds: seq<Id>, route: string -> Option<string>, d: Database)
    requires |groups| <= |jobIds|
    ensures Fold(InsertJobs(request, groups, jobIds, route), d) ==
            d.(jobs := EnqueueGroups(d.jobs, request, groups, jobIds, route))
  {
    if groups != [] {
      var n := |groups| - 1;
      JobsInserted(request, groups[..n], jobIds, route, d);
      FoldOne(InsertJobs(request, groups[..n], jobIds, route), InsertJob(ProductionJob(jobIds[n], request, groups[n], route)), d);
      hide ProductionJob, Enqueue;
    }
  }

  /** The statements of a save are the save of the tables. */
  lemma ComandaSaved(comanda: Comanda, d: Database)
    ensures Brings(SaveComanda(comanda), d, d.(comandas := ComandaStore.Save(d.comandas, comanda)))
  {
    var id, rows := comanda.comandaId, ComandaStore.PreContaRows(comanda.preContas);
    hide Fold, UpsertAll, Brings, ComandaStore.PreContaRows, ComandaStore.ComandaRowOf;
    var items, payments, preContas := UpsertItems(id, comanda.items), UpsertPayments(id, comanda.payments), UpsertPreContas(id, rows);
    var one := UpsertComanda(comanda)(d);
    var two := Fold(items, one);
    var three := Fold(payments, two);
    var four := Fold(preContas, three);
    ItemsUpserted(id, comanda.items, one);
    PaymentsUpserted(id, comanda.payments, two);
    PreContasUpserted(id, rows, three);
    EachBrings(items, one);
    EachBrings(payments, two);
    EachBrings(preContas, three);
    WriteBrings(UpsertComanda(comanda), d);
    SequenceBrings(Each(payments), Each(preContas), two, three, four);
    SequenceBrings(Each(items), Sequence(Each(payments), Each(preContas)), one, two, four);
    SequenceBrings(Write(UpsertComanda(comanda)), Sequence(Each(items), Sequence(Each(payments), Each(preContas))), d, one, four);
    TransactionBrings(Sequence(Write(UpsertComanda(comanda)),
                               Sequence(Each(items), Sequence(Each(payments), Each(preContas)))), d, four);
  }

  lemma SessionSaved(session: Session, d: Database)
    ensures Brings(SaveSession(session), d, d.(cash := CashStore.Save(d.cash, session)))
  {
    hide Fold, UpsertAll, Brings, CashStore.SessionRowOf;
    var one, movements := UpsertSession(session)(d), UpsertMovements(session.cashSessionId, session.movements);
    MovementsUpserted(session.cashSessionId, session.movements, one);
    EachBrings(movements, one);
    WriteBrings(UpsertSession(session), d);
    SequenceBrings(Write(UpsertSession(session)), Each(movements), d, one, Fold(movements, one));
    TransactionBrings(Sequence(Write(UpsertSession(session)), Each(movements)), d, Fold(movements, one));
  }

  lemma SavedAndEnqueued(comanda: Comanda, request: Request, jobIds: seq<Id>, route: string -> Option<string>, d: Database)
    requires |Setores(request.items)| <= |jobIds|
    ensures Brings(SaveAndEnqueue(comanda, request, jobIds, route), d,
                   d.(comandas := ComandaStore.Save(d.comandas, comanda), jobs := EnqueueTickets(d.jobs, request, jobIds, route)))
  {
    hide SaveComanda, Brings, Fold, Groups, Setores, EnqueueGroups, InsertJobs, ComandaStore.Save;
    var saved := d.(comandas := ComandaStore.Save(d.comandas, comanda));
    var inserts := InsertJobs(request, Groups(request.items), jobIds, route);
    ComandaSaved(comanda, d);
    JobsInserted(request, Groups(request.items), jobIds, route, saved);
    EachBrings(inserts, saved);
    SequenceBrings(SaveComanda(comanda), Each(inserts), d, saved, Fold(inserts, saved));
    TransactionBrings(Sequence(SaveComanda(comanda), Each(inserts)), d, Fold(inserts, saved));
  }

  lemma BothSaved(comanda: Comanda, session: Session, d: Database)
    ensures Brings(SaveBoth(comanda, session), d,
                   d.(comandas := ComandaStore.Save(d.comandas, comanda), cash := CashStore.Save(d.cash, session)))
  {
    hide SaveComanda, SaveSession, Brings, ComandaStore.Save, CashStore.Save;
    var saved := d.(comandas := ComandaStore.Save(d.comandas, comanda));
    var both := saved.(cash := CashStore.Save(d.cash, session));
    ComandaSaved(comanda, d);
    SessionSaved(session, saved);
    SequenceBrings(SaveComanda(comanda), SaveSession(session), d, saved, both);
    TransactionBrings(Sequence(SaveComanda(comanda), SaveSession(session)), d, both);
  }
}

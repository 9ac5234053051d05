/** The repositories over the connection: reads of the current tables, and saves that run as transactions. */
module Repositories {
  import opened Wrappers
  import opened Rows
  import opened Tables
  import opened Comandas
  import opened Cash
  import opened Transactions
  import opened PdvDatabase
  import ComandaStore
  import CashStore

  /** Runs a transaction whose `failsAt`-th step fails; none does when it has fewer. */
  method Execute(connection: Connection<Database>, work: Callback<Database>, failsAt: nat, ghost after: Database) returns (threw: bool)
    requires connection.Valid() && work.Transaction? && Brings(work, connection.sql.current, after)
    modifies connection
    ensures connection.Valid() && connection.depth == old(connection.depth) && connection.sql.frames == old(connection.sql.frames)
    ensures threw <==> failsAt < StepCount(work)
    ensures connection.sql.current == if threw then old(connection.sql.current) else after
    ensures connection.depth.None? ==> connection.crashImages <= old(connection.crashImages) + {connection.sql.current}
  {
    AllOrNothing(work, failsAt, connection.sql.current);
    var failing := Failing(work, failsAt);
    threw := connection.ExecuteTransaction(failing.body, failing.closes);
  }

  class ComandaRepository {
    const connection: Connection<Database>

    constructor (connection: Connection<Database>)
      ensures this.connection == connection
    {
      this.connection := connection;
    }

    /** `findById`: the comanda row and its three ordered lists. */
    method FindById(comandaId: Id, ghost stored: map<Id, Comanda>) returns (found: Option<Comanda>)
      requires ComandaStore.Refines(connection.sql.current.comandas, stored)
      ensures found == if comandaId in stored then Some(Reload(stored[comandaId])) else None
    {
      var db := connection.sql.current.comandas;
      ComandaStore.FindsTheSaved(db, stored, comandaId);
      if comandaId !in db.comandas {
        return None;
      }
      ComandaStore.RowsKeyed(db, stored, comandaId);
      var row := db.comandas[comandaId];
      var items := SelectOrdered(Select(db.items, comandaId), ItemOrder);
      var payments := SelectOrdered(Select(db.payments, comandaId), PaymentOrder);
      var preContas := SelectOrdered(Select(db.preContas, comandaId), ComandaStore.PreContaRowOrder);
      return Some(Comanda(row.comandaId, row.numero, row.mesaId, row.atendimentoRef, None, row.status, row.openedAt,
                          row.currentOwnerUserId, row.cancelledAt, row.cancellationReason, row.closedAt,
                          items, payments, ComandaStore.Snapshots(preContas), row.productionBatches));
    }

    /** Whether `findLatestActiveByNumero` finds a comanda. */
    method HasActiveNumero(numero: string, ghost stored: map<Id, Comanda>) returns (taken: bool)
      requires ComandaStore.Refines(connection.sql.current.comandas, stored)
      ensures taken <==> exists id :: id in stored && !stored[id].status.Encerrada? && !stored[id].status.Cancelada?
                                      && stored[id].numero == numero
    {
      var rows := connection.sql.current.comandas.comandas;
      taken := exists id :: id in rows && !rows[id].status.Encerrada? && !rows[id].status.Cancelada? && rows[id].numero == numero;
    }

    method CountByStatus(status: ComandaStatus, ghost stored: map<Id, Comanda>) returns (total: nat)
      requires ComandaStore.Refines(connection.sql.current.comandas, stored)
      ensures total == |set id | id in stored && stored[id].status == status|
    {
      hide Holds, CalculateComandaTotals;
      var rows := connection.sql.current.comandas.comandas;
      var matching := set id | id in rows && rows[id].status == status;
      assert matching == set id | id in stored && stored[id].status == status;
      total := |matching|;
    }

    /** `saveAggregate`: one upsert for the comanda and one for each of its rows, in a transaction. */
    method SaveAggregate(comanda: Comanda, failsAt: nat, ghost stored: map<Id, Comanda>) returns (threw: bool)
      requires connection.Valid()
      requires ComandaStore.Refines(connection.sql.current.comandas, stored) && ComandaStore.Saveable(stored, comanda)
      modifies connection
      ensures connection.Valid() && connection.depth == old(connection.depth)
      ensures threw <==> failsAt < StepCount(SaveComanda(comanda))
      ensures threw ==> connection.sql.current == old(connection.sql.current)
      ensures !threw ==> connection.sql.current == old(connection.sql.current).(comandas := connection.sql.current.comandas)
                         && ComandaStore.Refines(connection.sql.current.comandas, stored[comanda.comandaId := comanda])
      ensures connection.depth.None? ==> connection.crashImages <= old(connection.crashImages) + {connection.sql.current}
    {
      hide ComandaStore.Refines, ComandaStore.Saveable, ComandaStore.Save, SaveComanda, StepCount;
      ghost var d := connection.sql.current;
      ComandaSaved(comanda, d);
      ComandaStore.SaveRefines(d.comandas, stored, comanda);
      assert SaveComanda(comanda).Transaction? by { SavesAreTransactions(comanda); }
      threw := Execute(connection, SaveComanda(comanda), failsAt, d.(comandas := ComandaStore.Save(d.comandas, comanda)));
    }
  }

  lemma SavesAreTransactions(comanda: Comanda)
    ensures SaveComanda(comanda).Transaction?
  {
  }

  /** ORDER BY opened_at DESC. */
  function NewestFirst(row: CashStore.SessionRow): (Time, Id) {
    (-row.openedAt, row.cashSessionId)
  }

  class CashSessionRepository {
    const connection: Connection<Database>

    constructor (connection: Connection<Database>)
      ensures this.connection == connection
    {
      this.connection := connection;
    }

    /** `findById`: the session row and its ordered movements. */
    method FindById(cashSessionId: Id, ghost stored: map<Id, Session>) returns (found: Option<Session>)
      requires CashStore.Refines(connection.sql.current.cash, stored)
      ensures found == if cashSessionId in stored then Some(ReloadSession(stored[cashSessionId])) else None
    {
      var db := connection.sql.current.cash;
      CashStore.FindsTheSaved(db, stored, cashSessionId);
      if cashSessionId !in db.sessions {
        return None;
      }
      SelectsOwnRows(db.movements, CashStore.MovementLists(stored), MovementKey, cashSessionId);
      DistinctKeyed(stored[cashSessionId].movements, MovementKey, MovementOrder);
      var row := db.sessions[cashSessionId];
      var movements := SelectOrdered(Select(db.movements, cashSessionId), MovementOrder);
      return Some(Session(row.cashSessionId, row.terminalId, row.openedBy, row.openedAt, row.openingFundAmountCents,
                          row.openingReason, row.status, row.closingStartedAt, row.closedAt, movements, row.closureSummary));
    }

    /** The row `findActiveByTerminalId` selects: the newest of the terminal's sessions that are not FECHADO. */
    method FindActiveId(terminalId: string, ghost stored: map<Id, Session>) returns (found: Option<Id>)
      requires CashStore.Refines(connection.sql.current.cash, stored)
      ensures found.Some? ==> found.value in stored && stored[found.value].terminalId == terminalId
                              && !stored[found.value].status.Fechado?
      ensures forall id :: id in stored && stored[id].terminalId == terminalId && !stored[id].status.Fechado? ==>
                found.Some? && stored[id].openedAt <= stored[found.value].openedAt
    {
      var db := connection.sql.current.cash.sessions;
      var active := set id | id in db && db[id].terminalId == terminalId && !db[id].status.Fechado? :: db[id];
      assert forall id :: id in stored ==> db[id] == CashStore.SessionRowOf(stored[id]) && stored[id].cashSessionId == id;
      assert forall id :: id in stored && stored[id].terminalId == terminalId && !stored[id].status.Fechado? ==> db[id] in active;
      hide Holds, CashStore.Refines, OrderBy;
      var rows := SelectOrdered(active, NewestFirst);
      OrderByRows(active, NewestFirst);
      if rows == [] {
        assert active == {};
        return None;
      }
      assert rows[0] in multiset(rows) && rows[0] in active;
      forall id | id in stored && stored[id].terminalId == terminalId && !stored[id].status.Fechado?
        ensures stored[id].openedAt <= rows[0].openedAt {
        assert db[id] in active && db[id] in multiset(rows);
        var j := IndexOf(rows, db[id]);
        OrderBySorted(active, NewestFirst, 0, j);
      }
      return Some(rows[0].cashSessionId);
    }

    /** `saveAggregate`: one upsert for the session and one for each movement, in a transaction. */
    method SaveAggregate(session: Session, failsAt: nat, ghost stored: map<Id, Session>) returns (threw: bool)
      requires connection.Valid()
      requires CashStore.Refines(connection.sql.current.cash, stored) && CashStore.Saveable(stored, session)
      modifies connection
      ensures connection.Valid() && connection.depth == old(connection.depth)
      ensures threw <==> failsAt < StepCount(SaveSession(session))
      ensures threw ==> connection.sql.current == old(connection.sql.current)
      ensures !threw ==> connection.sql.current == old(connection.sql.current).(cash := connection.sql.current.cash)
                         && CashStore.Refines(connection.sql.current.cash, stored[session.cashSessionId := session])
      ensures connection.depth.None? ==> connection.crashImages <= old(connection.crashImages) + {connection.sql.current}
    {
      hide CashStore.Refines, CashStore.Saveable, CashStore.Save, StepCount, Brings;
      ghost var d := connection.sql.current;
      SessionSaved(session, d);
      CashStore.SaveRefines(d.cash, stored, session);
      threw := Execute(connection, SaveSession(session), failsAt, d.(cash := CashStore.Save(d.cash, session)));
    }
  }
}

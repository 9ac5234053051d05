/** The cash tables as a map from id to session. */
module CashStore {
  import opened Wrappers
  import opened Rows
  import opened Tables
  import opened Comandas
  import opened Cash

  datatype SessionRow = SessionRow(
    cashSessionId: Id,
    terminalId: string,
    openedBy: Actor,
    openedAt: Time,
    openingFundAmountCents: Cents,
    openingReason: Option<string>,
    status: SessionStatus,
    closingStartedAt: Option<Time>,
    closedAt: Option<Time>,
    closureSummary: Option<Closure>)

  datatype CashTables = CashTables(sessions: map<Id, SessionRow>, movements: Table<Movement>)

  function SessionRowOf(s: Session): SessionRow {
    SessionRow(s.cashSessionId, s.terminalId, s.openedBy, s.openedAt, s.openingFundAmountCents, s.openingReason,
               s.status, s.closingStartedAt, s.closedAt, s.closure)
  }

  function MergeMovement(there: Movement, given: Movement): Movement { given }

  function Save(t: CashTables, s: Session): CashTables {
    CashTables(t.sessions[s.cashSessionId := SessionRowOf(s)],
               UpsertAll(t.movements, s.cashSessionId, s.movements, MovementKey, MergeMovement))
  }

  /** `findById` followed by `mapPersistedCashSessionAggregate`. */
  ghost function FindById(t: CashTables, id: Id): Option<Session> {
    if id !in t.sessions then None
    else
      var row := t.sessions[id];
      Some(Session(row.cashSessionId, row.terminalId, row.openedBy, row.openedAt, row.openingFundAmountCents,
                   row.openingReason, row.status, row.closingStartedAt, row.closedAt,
                   OrderBy(Select(t.movements, id), MovementOrder), row.closureSummary))
  }

  function MovementLists(m: map<Id, Session>): map<Id, seq<Movement>> { map id | id in m :: m[id].movements }

  ghost predicate Refines(t: CashTables, m: map<Id, Session>) {
    && t.sessions.Keys == m.Keys
    && (forall id :: id in m ==> m[id].cashSessionId == id && t.sessions[id] == SessionRowOf(m[id]))
    && (forall id :: id in m ==> DistinctBy(m[id].movements, MovementKey))
    && Holds(t.movements, MovementLists(m), MovementKey)
  }

  lemma FindsTheSaved(t: CashTables, m: map<Id, Session>, id: Id)
    requires Refines(t, m)
    ensures FindById(t, id) == if id in m then Some(ReloadSession(m[id])) else None
    ensures id in m ==> multiset(FindById(t, id).value.movements) == multiset(m[id].movements)
  {
    if id in m {
      SelectsOwnRows(t.movements, MovementLists(m), MovementKey, id);
      ReorderKeepsRows(m[id].movements, MovementOrder, MovementKey);
    }
  }

  ghost predicate Saveable(m: map<Id, Session>, s: Session) {
    && DistinctBy(s.movements, MovementKey)
    && (s.cashSessionId in m ==> Covers(m[s.cashSessionId].movements, s.movements, MovementKey, MergeMovement))
    && (forall id :: id in m && id != s.cashSessionId ==> KeysApart(m[id].movements, s.movements, MovementKey))
  }

  lemma SaveRefines(t: CashTables, m: map<Id, Session>, s: Session)
    requires Refines(t, m) && Saveable(m, s)
    ensures Refines(Save(t, s), m[s.cashSessionId := s])
  {
    SaveList(t.movements, MovementLists(m), s.cashSessionId, s.movements, MovementKey, MergeMovement);
    assert MovementLists(m[s.cashSessionId := s]) == MovementLists(m)[s.cashSessionId := s.movements];
  }
}

/** The main results about fiscal documents: mirrored rows and numbering in every run; one holder, one
    authorization and a frozen contingency in the runs in which no claim takes a held row. */
module FiscalSafety {
  import opened Wrappers
  import opened Rows
  import opened Decimal
  import opened NsAccessKey
  import opened FiscalStore
  import opened FiscalWorkers

  // ---------- every run ----------

  /** A document and its queue row agree in every reachable state. */
  lemma RowsMirrored(trace: seq<State>, acts: seq<Action>, n: nat, i: nat)
    requires IsRun(trace, acts) && n < |trace| && i < |trace[n].db.documents|
    ensures Aligned(trace[n].db) && Mirrors(trace[n].db.documents[i], trace[n].db.queue[i])
  {
    ReachableState(trace, acts, n);
    assert RowOk(trace[n].db, i);
  }

  lemma SameDocuments(db: FiscalDb)
    ensures Continues(db, db)
  {
  }

  lemma ContinuesOn(a: FiscalDb, b: FiscalDb, c: FiscalDb)
    requires Continues(a, b) && Continues(b, c)
    ensures Continues(a, c)
  {
  }

  /** Documents keep their places, and events are never lost. */
  lemma {:induction false} RunContinues(trace: seq<State>, acts: seq<Action>, n: nat, m: nat)
    requires IsRun(trace, acts) && n <= m < |trace|
    ensures Continues(trace[n].db, trace[m].db)
    decreases m
  {
    hide Step, Inv, Enabled, Steps, Continues;
    SameDocuments(trace[n].db);
    if n < m {
      RunContinues(trace, acts, n, m - 1);
      ReachableState(trace, acts, m - 1);
      StepAt(trace, acts, m - 1);
      StepKeepsInv(trace[m - 1], acts[m - 1]);
      ContinuesOn(trace[n].db, trace[m - 1].db, trace[m].db);
    }
  }

  /** Every status a document ever had is carried by an event of its trail, even though events with a
      repeated id are dropped. */
  lemma StatusHistory(trace: seq<State>, acts: seq<Action>, n: nat, m: nat, i: nat)
    requires IsRun(trace, acts) && n <= m < |trace| && i < |trace[n].db.documents|
    ensures Carried(trace[m].db.events, trace[n].db.documents[i].comandaId, trace[n].db.documents[i].status)
  {
    ReachableState(trace, acts, n);
    RunContinues(trace, acts, n, m);
    assert RowOk(trace[n].db, i);
    CarriedStays(trace[n].db.events, trace[m].db.events, trace[n].db.documents[i].comandaId, trace[n].db.documents[i].status);
  }

  /** Each emitter's documents are numbered 1..n, and no comanda has two documents. */
  lemma NumbersWithoutGap(trace: seq<State>, acts: seq<Action>, n: nat, emitterId: string)
    requires IsRun(trace, acts) && n < |trace|
    ensures var numeros := NumerosOf(trace[n].db.documents, emitterId);
            |numeros| == CountOf(trace[n].db.documents, emitterId) && forall i :: 0 <= i < |numeros| ==> numeros[i] == i + 1
    ensures forall i, j :: 0 <= i < j < |trace[n].db.documents| ==>
              trace[n].db.documents[i].comandaId != trace[n].db.documents[j].comandaId
  {
    ReachableState(trace, acts, n);
    NumberedFromOne(trace[n].db.documents, emitterId);
  }

  /** While an emitter has fewer than 10^9 documents, their access keys are pairwise distinct. */
  lemma KeysDistinct(trace: seq<State>, acts: seq<Action>, n: nat, i: nat, j: nat)
    requires IsRun(trace, acts) && n < |trace| && i < j < |trace[n].db.documents|
    requires trace[n].db.documents[i].emitterId == trace[n].db.documents[j].emitterId
    requires CountOf(trace[n].db.documents, trace[n].db.documents[i].emitterId) < NUMERO_LIMIT
    requires trace[n].db.documents[i].accessKey.Some? && trace[n].db.documents[j].accessKey.Some?
    ensures trace[n].db.documents[i].accessKey != trace[n].db.documents[j].accessKey
  {
    ReachableState(trace, acts, n);
    var documents := trace[n].db.documents;
    assert RowOk(trace[n].db, i) && RowOk(trace[n].db, j);
    var a, b := documents[i], documents[j];
    NumerosDiffer(documents, i, j);
    KeysDiffer(a.emitterId, a.terminalId, a.serie, a.numero, Normal, b.emitterId, b.terminalId, b.serie, b.numero, Normal);
  }

  /** Beyond that, exactly when two documents of one emitter share a key. */
  lemma KeysRepeat(trace: seq<State>, acts: seq<Action>, n: nat, i: nat, j: nat)
    requires IsRun(trace, acts) && n < |trace| && i < j < |trace[n].db.documents|
    requires trace[n].db.documents[i].emitterId == trace[n].db.documents[j].emitterId
    requires trace[n].db.documents[i].accessKey.Some? && trace[n].db.documents[j].accessKey.Some?
    requires |Print(trace[n].db.documents[j].numero)| <= 14
    ensures var (a, b) := (trace[n].db.documents[i], trace[n].db.documents[j]);
            a.accessKey == b.accessKey <==>
            Shifted(Numero(a.numero), Numero(b.numero), EmitterDigits(a.emitterId), TerminalDigits(a.terminalId),
                    TerminalDigits(b.terminalId))
  {
    hide Shifted, Numero, Print, BuildNsAccessKey, EmitterDigits, TerminalDigits;
    ReachableState(trace, acts, n);
    var documents := trace[n].db.documents;
    assert RowOk(trace[n].db, i) && RowOk(trace[n].db, j);
    var a, b := documents[i], documents[j];
    NumerosDiffer(documents, i, j);
    KeysRepeatIffShifted(a.emitterId, a.serie, Normal, a.terminalId, a.numero, b.terminalId, b.numero);
  }

  // ---------- safe runs ----------

  /** A live worker is waiting for the provider over the document of row k. */
  predicate RowHeld(s: State, k: nat)
    requires k < |s.db.documents|
  {
    exists w :: w in s.workers && s.workers[w].held.comandaId == s.db.documents[k].comandaId
  }

  /** No claim of a held row: the first ready row is nobody's. */
  predicate Safe(s: State, act: Action) {
    act.Claim? ==>
      var k := FirstReady(s.db.queue, act.asOf);
      k < |s.db.documents| ==> !RowHeld(s, k)
  }

  /** The claim's time has not reached the lease of any live holder. */
  predicate LeasesRunning(s: State, act: Action) {
    act.Claim? ==> forall w :: w in s.workers ==> act.asOf < s.workers[w].lease
  }

  ghost predicate SafeRun(trace: seq<State>, acts: seq<Action>) {
    IsRun(trace, acts) && forall i :: 0 <= i < |acts| ==> Safe(trace[i], acts[i])
  }

  predicate InFlight(status: FiscalStatus) {
    status.Signed? || status.Sent? || status.Contingency?
  }

  /** The claim-time copy still tells the truth. */
  predicate UpToDate(held: Document, d: Document) {
    && SameIdentity(d, held) && d.accessKey == held.accessKey && d.emissionMode == held.emissionMode
    && d.contingencyStartedAt == held.contingencyStartedAt && d.contingencyJustification == held.contingencyJustification
  }

  /** The row at i is leased to the holder and its document is being worked on. */
  predicate LockedAt(db: FiscalDb, h: Holder, i: nat) {
    && i < |db.documents| && i < |db.queue| && UpToDate(h.held, db.documents[i])
    && db.queue[i].leaseExpiresAt == Some(h.lease) && InFlight(db.documents[i].status)
  }

  ghost predicate Locked(db: FiscalDb, h: Holder) {
    exists i: nat :: LockedAt(db, h, i)
  }

  ghost predicate LocksOk(s: State) {
    && (forall w :: w in s.workers ==> Locked(s.db, s.workers[w]))
    && (forall v, w :: v in s.workers && w in s.workers && v != w ==>
          s.workers[v].held.comandaId != s.workers[w].held.comandaId)
  }

  ghost predicate SafeInv(s: State) {
    Inv(s) && LocksOk(s)
  }

  // ---------- what may change ----------

  /** Final: nothing will ever be done with it again. */
  predicate Settled(d: Document, q: QueueRow) {
    d.status.Authorized? || (d.status.Rejected? && q.nextRetryAt.None?)
  }

  /** A document in contingency keeps its mode, dhCont, xJust and key; a settled one keeps everything. */
  predicate KeepsFaith(d: Document, q: QueueRow, later: Document, laterRow: QueueRow) {
    && (Settled(d, q) ==> later == d && laterRow == q)
    && (d.emissionMode.ContingencyOffline? ==>
          && later.emissionMode == d.emissionMode && later.accessKey == d.accessKey
          && later.contingencyStartedAt == d.contingencyStartedAt
          && later.contingencyJustification == d.contingencyJustification)
  }

  ghost predicate StepKeepsFaith(db: FiscalDb, later: FiscalDb) {
    && Aligned(db) && Aligned(later) && |db.documents| <= |later.documents|
    && forall i :: 0 <= i < |db.documents| ==> KeepsFaith(db.documents[i], db.queue[i], later.documents[i], later.queue[i])
  }

  /** Only row k differs. */
  predicate OnlyRow(db: FiscalDb, later: FiscalDb, k: nat) {
    && Aligned(db) && Aligned(later) && |later.documents| == |db.documents|
    && forall i :: 0 <= i < |db.documents| && i != k ==> later.documents[i] == db.documents[i] && later.queue[i] == db.queue[i]
  }

  // ---------- a claim ----------

  lemma ReadyIsOpen(db: FiscalDb, k: nat, asOf: Time)
    requires RowsOk(db) && k < |db.documents| && Ready(db.queue[k], asOf)
    ensures !Settled(db.documents[k], db.queue[k])
    ensures InFlight(db.documents[k].status) || db.documents[k].status.Draft? || db.documents[k].status.Rejected?
  {
    assert RowOk(db, k);
  }

  lemma ClaimLocks(db: FiscalDb, k: nat, asOf: Time, index: nat)
    requires RowsOk(db) && k < |db.documents| && Ready(db.queue[k], asOf)
    ensures var claimed := ClaimRow(db, k, asOf, index);
            && claimed.holder.Some? && LockedAt(claimed.db, claimed.holder.value, k)
            && claimed.holder.value.held == db.documents[k]
            && OnlyRow(db, claimed.db, k) && StepKeepsFaith(db, claimed.db)
  {
    ReadyIsOpen(db, k, asOf);
    assert RowOk(db, k);
    hide Ready, RowOk, RowsOk, Mirrors, KeyOk;
  }

  /** The row of a live holder is not ready, so no other worker takes it. */
  lemma LockedIsNotReady(db: FiscalDb, h: Holder, i: nat, asOf: Time)
    requires LockedAt(db, h, i) && asOf < h.lease
    ensures !Ready(db.queue[i], asOf)
  {
  }

  lemma StillLocked(db: FiscalDb, later: FiscalDb, k: nat, h: Holder, i: nat)
    requires LockedAt(db, h, i) && i != k && OnlyRow(db, later, k)
    ensures LockedAt(later, h, i)
  {
  }

  lemma SamePlace(documents: seq<Document>, i: nat, j: nat)
    requires Numbered(documents) && i < |documents| && j < |documents| && documents[i].comandaId == documents[j].comandaId
    ensures i == j
  {
    hide CountOf;
  }

  /** A claim of a row that is not the holder's leaves the holder alone. */
  lemma OthersUntouched(s: State, k: nat, later: FiscalDb, w: WorkerId)
    requires SafeInv(s) && w in s.workers && k < |s.db.documents|
    requires s.workers[w].held.comandaId != s.db.documents[k].comandaId && OnlyRow(s.db, later, k)
    ensures Locked(later, s.workers[w])
  {
    hide LockedAt, OnlyRow, Inv, LocksOk;
    var i := HeldRow(s, w);
    StillLocked(s.db, later, k, s.workers[w], i);
  }

  lemma HeldIsNotReady(s: State, w: WorkerId, k: nat, asOf: Time)
    requires SafeInv(s) && w in s.workers && asOf < s.workers[w].lease
    requires k < |s.db.documents| && k < |s.db.queue| && s.workers[w].held.comandaId == s.db.documents[k].comandaId
    ensures !Ready(s.db.queue[k], asOf)
  {
    assert Numbered(s.db.documents);
    hide Inv, LocksOk, Numbered, LockedAt, Ready;
    var i := HeldRow(s, w);
    SamePlace(s.db.documents, i, k);
    LockedIsNotReady(s.db, s.workers[w], i, asOf);
  }

  /** While every live lease is running, the rows held are not ready, so any claim is safe: a held row is
      taken only when its lease is over. */
  lemma RunningLeasesAreSafe(s: State, act: Action)
    requires SafeInv(s) && LeasesRunning(s, act)
    ensures Safe(s, act)
  {
    if act.Claim? {
      var k := FirstReady(s.db.queue, act.asOf);
      if k < |s.db.documents| {
        assert Aligned(s.db);
        hide SafeInv, Ready;
        forall w | w in s.workers && s.workers[w].held.comandaId == s.db.documents[k].comandaId ensures !Ready(s.db.queue[k], act.asOf) {
          HeldIsNotReady(s, w, k, act.asOf);
        }
      }
    }
  }

  lemma NothingTouched(db: FiscalDb, k: nat)
    requires Aligned(db)
    ensures OnlyRow(db, db, k) && StepKeepsFaith(db, db)
  {
  }

  lemma OneMoreLock(s: State, w: WorkerId, h: Holder, later: FiscalDb)
    requires LocksOk(s) && Locked(later, h)
    requires forall v :: v in s.workers ==> Locked(later, s.workers[v]) && s.workers[v].held.comandaId != h.held.comandaId
    ensures LocksOk(State(later, s.workers[w := h]))
  {
    hide Locked;
  }

  lemma ClaimKeepsLocks(s: State, act: Action)
    requires SafeInv(s) && act.Claim? && Enabled(s, act) && Safe(s, act)
    ensures LocksOk(Step(s, act)) && StepKeepsFaith(s.db, Step(s, act).db)
  {
    var k := FirstReady(s.db.queue, act.asOf);
    assert RowsOk(s.db);
    hide ClaimRow, LockedAt, OnlyRow, RowsOk, StepKeepsFaith, Ready, LocksOk, Inv;
    if k < |s.db.queue| {
      ClaimLocks(s.db, k, act.asOf, act.index);
      var claimed := ClaimRow(s.db, k, act.asOf, act.index);
      assert LockedAt(claimed.db, claimed.holder.value, k);
      forall w | w in s.workers ensures Locked(claimed.db, s.workers[w]) && s.workers[w].held.comandaId != s.db.documents[k].comandaId {
        assert !RowHeld(s, k);
        OthersUntouched(s, k, claimed.db, w);
      }
      OneMoreLock(s, act.worker, claimed.holder.value, claimed.db);
    } else {
      NothingTouched(s.db, k);
    }
  }

  lemma HeldRow(s: State, w: WorkerId) returns (i: nat)
    requires SafeInv(s) && w in s.workers
    ensures LockedAt(s.db, s.workers[w], i) && i < |s.db.documents| && s.db.documents[i].comandaId == s.workers[w].held.comandaId
  {
    hide Inv;
    i :| LockedAt(s.db, s.workers[w], i);
  }

  // ---------- an answer ----------

  lemma AnswerKeepsFaith(d: Document, q: QueueRow, h: Holder, answer: Answer, printed: bool)
    requires InFlight(d.status) && UpToDate(h.held, d) && KeyOk(d) && Honest(h, answer) && !answer.NotFound?
    requires h.phase.Querying? ==> h.held.status.Contingency? && HasKey(h.held)
    ensures var p := AnswerPatch(h.held, answer, printed, h.asOf);
            KeepsFaith(d, q, PatchedDocument(d, p), PatchedRow(q, p))
  {
    hide BuildNsAccessKey;
  }

  lemma AppendTouchesOne(db: FiscalDb, k: nat, p: Patch, id: EventId, at: Time)
    requires Aligned(db) && k < |db.documents|
    requires KeepsFaith(db.documents[k], db.queue[k], PatchedDocument(db.documents[k], p), PatchedRow(db.queue[k], p))
    ensures OnlyRow(db, AppendState(db, k, p, id, at), k) && StepKeepsFaith(db, AppendState(db, k, p, id, at))
  {
    hide PatchedDocument, PatchedRow;
  }

  lemma ReplyKeepsFaith(s: State, act: Action)
    requires SafeInv(s) && act.Reply? && Enabled(s, act)
    ensures StepKeepsFaith(s.db, Step(s, act).db)
    ensures OnlyRow(s.db, Step(s, act).db, FindDocument(s.db.documents, s.workers[act.worker].held.comandaId))
  {
    var h := s.workers[act.worker];
    var k := HeldAt(s, act.worker);
    var i := HeldRow(s, act.worker);
    SamePlace(s.db.documents, i, k);
    assert RowOk(s.db, k) && KeyOk(s.db.documents[k]);
    hide AnswerPatch, AnswerEvent, PatchedDocument, PatchedRow, Inv, Honest, RowOk, KeepsFaith, AppendState, StepKeepsFaith, OnlyRow;
    if act.answer.NotFound? {
      NothingTouched(s.db, k);
    } else {
      AnswerKeepsFaith(s.db.documents[k], s.db.queue[k], h, act.answer, act.printed);
      AppendTouchesOne(s.db, k, AnswerPatch(h.held, act.answer, act.printed, h.asOf),
                       AnswerEvent(s.db.documents[k].comandaId, act.answer, h.asOf), h.asOf);
    }
  }

  /** An answer touches only its own document's row. */
  lemma OthersStayLocked(s: State, act: Action, w: WorkerId)
    requires SafeInv(s) && act.Reply? && Enabled(s, act) && w in s.workers && w != act.worker
    ensures Locked(Step(s, act).db, s.workers[w])
  {
    var k := HeldAt(s, act.worker);
    var i := HeldRow(s, w);
    ReplyKeepsFaith(s, act);
    NotMine(s, w, act.worker, i, k);
    hide Step, LockedAt, OnlyRow, SafeInv, Enabled;
    StillLocked(s.db, Step(s, act).db, k, s.workers[w], i);
  }

  lemma AskedAgainStaysLocked(s: State, act: Action)
    requires SafeInv(s) && act.Reply? && Enabled(s, act) && act.answer.NotFound?
    ensures Locked(s.db, s.workers[act.worker].(phase := Issuing))
  {
    var i := HeldRow(s, act.worker);
    assert LockedAt(s.db, s.workers[act.worker].(phase := Issuing), i);
  }

  /** Who still works after an answer: the others as before, and the worker itself only if it asks again. */
  lemma WorkersLeft(s: State, act: Action)
    requires Aligned(s.db) && act.Reply? && Enabled(s, act)
    ensures var later := Step(s, act);
            && (forall w :: w in later.workers && w != act.worker ==> w in s.workers && later.workers[w] == s.workers[w])
            && (act.worker in later.workers ==>
                  act.answer.NotFound? && later.db == s.db && later.workers[act.worker] == s.workers[act.worker].(phase := Issuing))
  {
    hide Acknowledge, Honest;
  }

  lemma SameHeldDocuments(s: State, later: State)
    requires LocksOk(s)
    requires forall w :: w in later.workers ==>
               && Locked(later.db, later.workers[w])
               && w in s.workers && later.workers[w].held == s.workers[w].held
    ensures LocksOk(later)
  {
    hide Locked;
  }

  lemma ReplyKeepsLocks(s: State, act: Action)
    requires SafeInv(s) && act.Reply? && Enabled(s, act)
    ensures LocksOk(Step(s, act)) && StepKeepsFaith(s.db, Step(s, act).db)
  {
    assert LocksOk(s) && Aligned(s.db) && act.worker in s.workers;
    hide Step, StepKeepsFaith, Locked, SafeInv, Enabled, OnlyRow, LocksOk;
    WorkersLeft(s, act);
    ReplyKeepsFaith(s, act);
    var later := Step(s, act);
    forall w | w in later.workers
      ensures Locked(later.db, later.workers[w]) && w in s.workers && later.workers[w].held == s.workers[w].held {
      if w == act.worker {
        AskedAgainStaysLocked(s, act);
      } else {
        OthersStayLocked(s, act, w);
      }
    }
    SameHeldDocuments(s, later);
  }

  lemma NotMine(s: State, v: WorkerId, w: WorkerId, i: nat, k: nat)
    requires SafeInv(s) && v in s.workers && w in s.workers && v != w
    requires i < |s.db.documents| && s.db.documents[i].comandaId == s.workers[v].held.comandaId
    requires k < |s.db.documents| && s.db.documents[k].comandaId == s.workers[w].held.comandaId
    ensures i != k
  {
    hide Inv;
  }

  // ---------- every step ----------

  /** Configuring, checking out and crashing leave the rows there as they are. */
  lemma OtherKeepsRows(s: State, act: Action)
    requires Aligned(s.db) && Enabled(s, act) && (act.Configure? || act.Checkout? || act.Crash?)
    ensures var later := Step(s, act);
            && Aligned(later.db) && s.db.documents <= later.db.documents && s.db.queue <= later.db.queue
            && forall w :: w in later.workers ==> w in s.workers && later.workers[w] == s.workers[w]
  {
    hide HighestNumero, FindDocument, InsertEvent;
  }

  lemma LockedInPrefix(db: FiscalDb, later: FiscalDb, h: Holder)
    requires db.documents <= later.documents && db.queue <= later.queue && Locked(db, h)
    ensures Locked(later, h)
  {
    var i: nat :| LockedAt(db, h, i);
    assert LockedAt(later, h, i);
  }

  lemma PrefixKeepsFaith(db: FiscalDb, later: FiscalDb)
    requires Aligned(db) && Aligned(later) && db.documents <= later.documents && db.queue <= later.queue
    ensures StepKeepsFaith(db, later)
  {
  }

  lemma OtherKeepsLocks(s: State, act: Action)
    requires SafeInv(s) && Enabled(s, act) && (act.Configure? || act.Checkout? || act.Crash?)
    ensures LocksOk(Step(s, act)) && StepKeepsFaith(s.db, Step(s, act).db)
  {
    hide Step, Locked, Numbered, HoldersOk, Enabled, StepKeepsFaith;
    OtherKeepsRows(s, act);
    PrefixKeepsFaith(s.db, Step(s, act).db);
    forall w | w in Step(s, act).workers ensures Locked(Step(s, act).db, s.workers[w]) {
      LockedInPrefix(s.db, Step(s, act).db, s.workers[w]);
    }
    SameHeldDocuments(s, Step(s, act));
  }

  lemma SafeStep(s: State, act: Action)
    requires SafeInv(s) && Enabled(s, act) && Safe(s, act)
    ensures SafeInv(Step(s, act)) && StepKeepsFaith(s.db, Step(s, act).db)
  {
    hide RowsOk, Numbered, HoldersOk, LocksOk, StepKeepsFaith, Safe, Step, Continues, Enabled;
    StepKeepsInv(s, act);
    match act
    case Claim(_, _, _) => ClaimKeepsLocks(s, act);
    case Reply(_, _, _) => ReplyKeepsLocks(s, act);
    case Configure(_) => OtherKeepsLocks(s, act);
    case Checkout(_, _, _, _) => OtherKeepsLocks(s, act);
    case Crash(_) => OtherKeepsLocks(s, act);
  }

  /** In a safe run every document has at most one holder, and its row is leased to that holder. */
  lemma {:induction false} OneHolder(trace: seq<State>, acts: seq<Action>, n: nat)
    requires SafeRun(trace, acts) && n < |trace|
    ensures SafeInv(trace[n])
  {
    if n > 0 {
      OneHolder(trace, acts, n - 1);
      StepAt(trace, acts, n - 1);
      hide Step, SafeInv, Enabled;
      SafeStep(trace[n - 1], acts[n - 1]);
    }
  }

  lemma {:induction false} SettledStays(trace: seq<State>, acts: seq<Action>, n: nat, m: nat, i: nat)
    requires SafeRun(trace, acts) && n <= m < |trace| && Aligned(trace[n].db) && i < |trace[n].db.documents|
    requires Settled(trace[n].db.documents[i], trace[n].db.queue[i])
    ensures Aligned(trace[m].db) && i < |trace[m].db.documents|
    ensures trace[m].db.documents[i] == trace[n].db.documents[i] && trace[m].db.queue[i] == trace[n].db.queue[i]
    decreases m
  {
    hide Settled, Step, SafeInv;
    if n < m {
      SettledStays(trace, acts, n, m - 1, i);
      OneHolder(trace, acts, m - 1);
      StepAt(trace, acts, m - 1);
      hide Step, SafeInv, Enabled;
      SafeStep(trace[m - 1], acts[m - 1]);
    }
  }

  /** AUTHORIZED, and REJECTED without a retry time, are absorbing: the document and its row never
      change again and no provider call is outstanding for them. */
  lemma SettledForever(trace: seq<State>, acts: seq<Action>, n: nat, m: nat, i: nat)
    requires SafeRun(trace, acts) && n <= m < |trace| && Aligned(trace[n].db) && i < |trace[n].db.documents|
    requires Settled(trace[n].db.documents[i], trace[n].db.queue[i])
    ensures Aligned(trace[m].db) && i < |trace[m].db.documents|
    ensures trace[m].db.documents[i] == trace[n].db.documents[i] && trace[m].db.queue[i] == trace[n].db.queue[i]
    ensures forall w :: w in trace[m].workers ==> trace[m].workers[w].held.comandaId != trace[n].db.documents[i].comandaId
  {
    hide Settled, SafeRun, SafeInv;
    SettledStays(trace, acts, n, m, i);
    OneHolder(trace, acts, m);
    NotHeld(trace[m], i);
  }

  lemma NotHeld(s: State, i: nat)
    requires SafeInv(s) && i < |s.db.documents| && Settled(s.db.documents[i], s.db.queue[i])
    ensures forall w :: w in s.workers ==> s.workers[w].held.comandaId != s.db.documents[i].comandaId
  {
    forall w | w in s.workers ensures s.workers[w].held.comandaId != s.db.documents[i].comandaId {
      var j := HeldRow(s, w);
      if s.db.documents[j].comandaId == s.db.documents[i].comandaId {
        SamePlace(s.db.documents, i, j);
      }
    }
  }

  /** Once a document is in contingency its emission mode, dhCont, xJust and access key never change. */
  lemma {:induction false} ContingencyFrozen(trace: seq<State>, acts: seq<Action>, n: nat, m: nat, i: nat)
    requires SafeRun(trace, acts) && n <= m < |trace| && i < |trace[n].db.documents|
    requires trace[n].db.documents[i].emissionMode.ContingencyOffline?
    ensures i < |trace[m].db.documents|
    ensures var (d, later) := (trace[n].db.documents[i], trace[m].db.documents[i]);
            && later.emissionMode == d.emissionMode && later.accessKey == d.accessKey
            && later.contingencyStartedAt == d.contingencyStartedAt
            && later.contingencyJustification == d.contingencyJustification
    decreases m
  {
    hide Step, SafeInv, Enabled, Steps;
    if n < m {
      ContingencyFrozen(trace, acts, n, m - 1, i);
      OneHolder(trace, acts, m - 1);
      StepAt(trace, acts, m - 1);
      SafeStep(trace[m - 1], acts[m - 1]);
      assert KeepsFaith(trace[m - 1].db.documents[i], trace[m - 1].db.queue[i], trace[m].db.documents[i], trace[m].db.queue[i]);
    }
  }

  /** In a safe run a document is authorized at most once. */
  lemma AuthorizedOnce(trace: seq<State>, acts: seq<Action>, n: nat, m: nat)
    requires SafeRun(trace, acts) && n < m < |acts|
    requires acts[n].Reply? && acts[n].answer.AuthorizedAnswer? && acts[m].Reply?
    ensures acts[n].worker in trace[n].workers && acts[m].worker in trace[m].workers
    ensures trace[m].workers[acts[m].worker].held.comandaId != trace[n].workers[acts[n].worker].held.comandaId
  {
    StepAt(trace, acts, n);
    StepAt(trace, acts, m);
    OneHolder(trace, acts, n);
    OneHolder(trace, acts, n + 1);
    var k := HeldAt(trace[n], acts[n].worker);
    Authorizes(trace[n], acts[n], k);
    assert Aligned(trace[n + 1].db);
    hide Step, SafeInv, Enabled, SafeRun;
    SettledForever(trace, acts, n + 1, m, k);
  }

  lemma Authorizes(s: State, act: Action, k: nat)
    requires Aligned(s.db) && act.Reply? && Enabled(s, act) && act.answer.AuthorizedAnswer?
    requires k == FindDocument(s.db.documents, s.workers[act.worker].held.comandaId) < |s.db.documents|
    ensures var later := Step(s, act).db;
            && |later.documents| == |s.db.documents| && later.documents[k].status.Authorized?
            && later.documents[k].comandaId == s.db.documents[k].comandaId
  {
    hide Honest;
  }
}

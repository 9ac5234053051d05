/** The fiscal workers as a state machine: checkouts, claims, answers and crashes in any order. */
module FiscalWorkers {
  import opened Wrappers
  import opened Rows
  import opened NsAccessKey
  import opened FiscalStore

  type WorkerId = nat

  datatype State = State(db: FiscalDb, workers: map<WorkerId, Holder>)

  /** `Claim` is one synchronous stretch of a worker: claim, read, sign, call the provider. `Reply` is
      the next one: handle the answer. A worker that dies or throws in between is a `Crash`. */
  datatype Action =
    | Configure(emitterId: string)
    | Checkout(comandaId: Id, terminalId: string, preferred: Option<string>, at: Time)
    | Claim(worker: WorkerId, asOf: Time, index: nat)
    | Reply(worker: WorkerId, answer: Answer, printed: bool)
    | Crash(worker: WorkerId)

  predicate Enabled(s: State, act: Action) {
    match act
    case Configure(_) => true
    case Checkout(_, _, preferred, _) => preferred.Some? ==> preferred.value in s.db.emitters
    case Claim(w, _, _) => w !in s.workers
    case Reply(w, answer, _) => w in s.workers && Honest(s.workers[w], answer)
    case Crash(w) => w in s.workers
  }

  predicate Aligned(db: FiscalDb) {
    |db.documents| == |db.queue|
  }

  function ClaimStep(s: State, w: WorkerId, asOf: Time, index: nat): State
    requires Aligned(s.db)
  {
    var k := FirstReady(s.db.queue, asOf);
    if k == |s.db.queue| then s
    else
      var claimed := ClaimRow(s.db, k, asOf, index);
      State(claimed.db, if claimed.holder.Some? then s.workers[w := claimed.holder.value] else s.workers)
  }

  function ReplyStep(s: State, w: WorkerId, answer: Answer, printed: bool): State
    requires Aligned(s.db) && w in s.workers
  {
    var h := s.workers[w];
    var k := FindDocument(s.db.documents, h.held.comandaId);
    if answer.NotFound? then s.(workers := s.workers[w := h.(phase := Issuing)])
    else if k == |s.db.documents| then s.(workers := s.workers - {w})
    else State(Acknowledge(s.db, k, h.held, answer, printed, h.asOf), s.workers - {w})
  }

  function Step(s: State, act: Action): State
    requires Aligned(s.db) && Enabled(s, act)
  {
    match act
    case Configure(emitterId) => s.(db := s.db.(emitters := s.db.emitters + {emitterId}))
    case Checkout(comandaId, terminalId, preferred, at) => s.(db := QueueCheckout(s.db, comandaId, terminalId, preferred, at))
    case Claim(w, asOf, index) => ClaimStep(s, w, asOf, index)
    case Reply(w, answer, printed) => ReplyStep(s, w, answer, printed)
    case Crash(w) => s.(workers := s.workers - {w})
  }

  predicate Steps(s: State, act: Action, next: State) {
    Aligned(s.db) && Enabled(s, act) && next == Step(s, act)
  }

  /** A run records every state it passes through, from empty tables and no workers. */
  ghost predicate IsRun(trace: seq<State>, acts: seq<Action>) {
    && |trace| == |acts| + 1
    && trace[0] == State(FiscalDb({}, [], [], map[]), map[])
    && forall i :: 0 <= i < |acts| ==> Steps(trace[i], acts[i], trace[i + 1])
  }

  lemma StepAt(trace: seq<State>, acts: seq<Action>, i: nat)
    requires IsRun(trace, acts) && i < |acts|
    ensures Aligned(trace[i].db) && Enabled(trace[i], acts[i]) && trace[i + 1] == Step(trace[i], acts[i])
  {
    assert Steps(trace[i], acts[i], trace[i + 1]);
  }

  // ---------- the invariant of all runs ----------

  /** A document and its queue row agree on every column they share. */
  predicate Mirrors(d: Document, q: QueueRow) {
    && q.comandaId == d.comandaId && q.status == d.status && q.accessKey == d.accessKey
    && q.emissionMode == d.emissionMode && q.contingencyRequired == d.contingencyRequired
    && q.contingencyStartedAt == d.contingencyStartedAt && q.providerReferenceId == d.nsReferenceId
    && q.lastErrorCode == d.lastErrorCode && q.lastErrorMessage == d.lastErrorMessage
    && q.issuedAt == d.issuedAt && q.authorizedAt == d.authorizedAt && q.lastStatusCheckedAt == d.lastStatusCheckedAt
  }

  predicate SameIdentity(a: Document, b: Document) {
    a.comandaId == b.comandaId && a.emitterId == b.emitterId && a.terminalId == b.terminalId
    && a.serie == b.serie && a.numero == b.numero
  }

  /** The key of a document is always the one built from its own number, under NORMAL. */
  function KeyOf(d: Document): string {
    BuildNsAccessKey(d.emitterId, d.terminalId, d.serie, d.numero, Normal)
  }

  predicate KeyOk(d: Document) {
    && (d.accessKey.Some? ==> d.accessKey.value == KeyOf(d))
    && (d.accessKey.None? ==> d.emissionMode.Normal?)
    && (d.emissionMode.ContingencyOffline? ==> d.contingencyStartedAt.Some? && d.contingencyJustification.Some?)
    && (d.status.Contingency? ==> d.emissionMode.ContingencyOffline?)
  }

  function DocumentOf(id: EventId): Id {
    id.comandaId
  }

  function StatusOf(id: EventId): FiscalStatus {
    match id
    case DraftEvent(_) => Draft
    case SignedEvent(_, _) => Signed
    case AuthorizedEvent(_, _) => Authorized
    case RejectedEvent(_, _) => Rejected
    case SentEvent(_, _) => Sent
    case ContingencyEvent(_, _) => Contingency
    case MissingEmitterEvent(_) => Rejected
  }

  ghost predicate EventsOk(events: map<EventId, Event>) {
    forall id :: id in events ==> events[id].comandaId == DocumentOf(id) && events[id].status == StatusOf(id)
  }

  /** Some event of the document's trail carries the status. */
  ghost predicate Carried(events: map<EventId, Event>, comandaId: Id, status: FiscalStatus) {
    exists id :: id in events && events[id].comandaId == comandaId && events[id].status == status
  }

  ghost predicate RowOk(db: FiscalDb, i: nat)
    requires Aligned(db) && i < |db.documents|
  {
    var d := db.documents[i];
    && Mirrors(d, db.queue[i]) && KeyOk(d) && d.emitterId in db.emitters && d.serie == CHECKOUT_SERIE
    && Carried(db.events, d.comandaId, d.status)
  }

  ghost predicate RowsOk(db: FiscalDb) {
    Aligned(db) && EventsOk(db.events) && forall i :: 0 <= i < |db.documents| ==> RowOk(db, i)
  }

  /** How many documents the emitter has. */
  function CountOf(documents: seq<Document>, emitterId: string): nat {
    if documents == [] then 0
    else CountOf(documents[..|documents| - 1], emitterId) + (if documents[|documents| - 1].emitterId == emitterId then 1 else 0)
  }

  /** One document a comanda; each document's number is one more than its emitter had before. */
  ghost predicate Numbered(documents: seq<Document>) {
    && (forall i, j :: 0 <= i < j < |documents| ==> documents[i].comandaId != documents[j].comandaId)
    && (forall i :: 0 <= i < |documents| ==> documents[i].numero == CountOf(documents[..i], documents[i].emitterId) + 1)
  }

  /** A worker holds the claim-time copy of a document that is still there. */
  ghost predicate HolderOk(h: Holder, documents: seq<Document>) {
    && KeyOk(h.held) && h.lease == h.asOf + LEASE_MS
    && (h.phase.Querying? ==> h.held.status.Contingency? && HasKey(h.held))
    && exists k :: 0 <= k < |documents| && SameIdentity(documents[k], h.held)
  }

  ghost predicate HoldersOk(s: State) {
    forall w :: w in s.workers ==> HolderOk(s.workers[w], s.db.documents)
  }

  ghost predicate Inv(s: State) {
    RowsOk(s.db) && Numbered(s.db.documents) && HoldersOk(s)
  }

  // ---------- writes keep the rows ----------

  /** The documents keep their places and their identity; events are only added. */
  ghost predicate Continues(db: FiscalDb, later: FiscalDb) {
    && |db.documents| <= |later.documents|
    && (forall i :: 0 <= i < |db.documents| ==> SameIdentity(later.documents[i], db.documents[i]))
    && (forall id :: id in db.events ==> id in later.events && later.events[id] == db.events[id])
  }

  lemma PatchMirrors(d: Document, q: QueueRow, p: Patch)
    requires Mirrors(d, q)
    ensures Mirrors(PatchedDocument(d, p), PatchedRow(q, p)) && SameIdentity(PatchedDocument(d, p), d)
  {
  }

  lemma CarriedStays(events: map<EventId, Event>, later: map<EventId, Event>, comandaId: Id, status: FiscalStatus)
    requires Carried(events, comandaId, status)
    requires forall id :: id in events ==> id in later && later[id] == events[id]
    ensures Carried(later, comandaId, status)
  {
    var id :| id in events && events[id].comandaId == comandaId && events[id].status == status;
    assert later[id] == events[id];
  }

  lemma InsertKeepsEvents(events: map<EventId, Event>, id: EventId, event: Event)
    requires EventsOk(events) && event.comandaId == DocumentOf(id) && event.status == StatusOf(id)
    ensures var later := InsertEvent(events, id, event);
            && EventsOk(later) && Carried(later, event.comandaId, event.status)
            && forall k :: k in events ==> k in later && later[k] == events[k]
  {
    assert InsertEvent(events, id, event)[id].status == event.status;
  }

  lemma AppendKeepsRows(db: FiscalDb, k: nat, p: Patch, id: EventId, at: Time)
    requires RowsOk(db) && k < |db.documents|
    requires DocumentOf(id) == db.documents[k].comandaId && StatusOf(id) == p.status
    requires KeyOk(PatchedDocument(db.documents[k], p))
    ensures RowsOk(AppendState(db, k, p, id, at)) && Continues(db, AppendState(db, k, p, id, at))
  {
    var later, d := AppendState(db, k, p, id, at), db.documents[k];
    assert RowOk(db, k);
    PatchMirrors(d, db.queue[k], p);
    InsertKeepsEvents(db.events, id, Event(d.comandaId, p.status, at));
    assert PatchedDocument(d, p).status == p.status;
    hide PatchedDocument, PatchedRow, InsertEvent, KeyOk, Mirrors;
    forall i | 0 <= i < |later.documents| ensures RowOk(later, i) {
      assert RowOk(db, i);
      if i != k {
        CarriedStays(db.events, later.events, db.documents[i].comandaId, db.documents[i].status);
      }
    }
  }

  lemma LeaseKeepsRows(db: FiscalDb, k: nat, lease: Time)
    requires RowsOk(db) && k < |db.documents|
    ensures RowsOk(Leased(db, k, lease)) && Continues(db, Leased(db, k, lease))
  {
    forall i | 0 <= i < |db.documents| ensures RowOk(Leased(db, k, lease), i) {
      assert RowOk(db, i);
    }
  }

  lemma ClaimKeepsRows(db: FiscalDb, k: nat, asOf: Time, index: nat)
    requires RowsOk(db) && k < |db.documents|
    ensures var claimed := ClaimRow(db, k, asOf, index);
            && RowsOk(claimed.db) && Continues(db, claimed.db) && |claimed.db.documents| == |db.documents|
            && claimed.db.emitters == db.emitters
  {
    var d, leased := db.documents[k], Leased(db, k, asOf + LEASE_MS);
    assert RowOk(db, k);
    LeaseKeepsRows(db, k, asOf + LEASE_MS);
    assert leased.documents == db.documents;
    if d.status.Draft? || d.status.Rejected? {
      var p := SignedPatch(asOf, asOf + LEASE_MS);
      assert KeyOk(PatchedDocument(d, p));
      hide RowsOk, KeyOk, SignedPatch;
      AppendKeepsRows(leased, k, p, SignedEvent(d.comandaId, index), asOf);
    }
  }

  // ---------- an honest answer ----------

  /** The key of an honest answer is the document's own key, whenever the request was made. */
  lemma AnswerKey(h: Holder, answer: Answer)
    requires KeyOk(h.held) && Honest(h, answer) && (h.phase.Querying? ==> h.held.status.Contingency? && HasKey(h.held))
    ensures answer.AuthorizedAnswer? ==> answer.accessKey == KeyOf(h.held)
    ensures answer.ContingencyAnswer? ==> answer.accessKey == KeyOf(h.held)
  {
    hide BuildNsAccessKey;
  }

  lemma AnswerKeepsKey(d: Document, h: Holder, answer: Answer, printed: bool)
    requires KeyOk(d) && KeyOk(h.held) && SameIdentity(d, h.held) && Honest(h, answer) && !answer.NotFound?
    requires h.phase.Querying? ==> h.held.status.Contingency? && HasKey(h.held)
    ensures KeyOk(PatchedDocument(d, AnswerPatch(h.held, answer, printed, h.asOf)))
  {
    AnswerKey(h, answer);
    hide BuildNsAccessKey, Honest;
  }

  lemma AnswerCarriesStatus(held: Document, comandaId: Id, answer: Answer, printed: bool, asOf: Time)
    requires !answer.NotFound?
    ensures StatusOf(AnswerEvent(comandaId, answer, asOf)) == AnswerPatch(held, answer, printed, asOf).status
    ensures DocumentOf(AnswerEvent(comandaId, answer, asOf)) == comandaId
  {
  }

  lemma AnswerKeepsRows(db: FiscalDb, k: nat, h: Holder, answer: Answer, printed: bool)
    requires RowsOk(db) && k < |db.documents| && SameIdentity(db.documents[k], h.held) && Honest(h, answer) && !answer.NotFound?
    requires KeyOk(h.held) && (h.phase.Querying? ==> h.held.status.Contingency? && HasKey(h.held))
    ensures var later := Acknowledge(db, k, h.held, answer, printed, h.asOf);
            RowsOk(later) && Continues(db, later) && |later.documents| == |db.documents| && later.emitters == db.emitters
  {
    var d := db.documents[k];
    var p, id := AnswerPatch(h.held, answer, printed, h.asOf), AnswerEvent(d.comandaId, answer, h.asOf);
    assert RowOk(db, k);
    assert KeyOk(d);
    hide RowsOk, RowOk, KeyOk, Honest, AnswerPatch, AnswerEvent, PatchedDocument, PatchedRow, StatusOf, Mirrors;
    AnswerKeepsKey(d, h, answer, printed);
    AnswerCarriesStatus(h.held, d.comandaId, answer, printed, h.asOf);
    AppendKeepsRows(db, k, p, id, h.asOf);
  }

  // ---------- numbering ----------

  lemma {:induction false} CountSame(a: seq<Document>, b: seq<Document>, emitterId: string)
    requires |a| == |b| && forall i :: 0 <= i < |a| ==> SameIdentity(a[i], b[i])
    ensures CountOf(a, emitterId) == CountOf(b, emitterId)
  {
    if a != [] {
      CountSame(a[..|a| - 1], b[..|b| - 1], emitterId);
    }
  }

  lemma NumbersStay(documents: seq<Document>, later: seq<Document>)
    requires Numbered(documents) && |documents| == |later|
    requires forall i :: 0 <= i < |documents| ==> SameIdentity(later[i], documents[i])
    ensures Numbered(later)
  {
    forall i | 0 <= i < |later| ensures later[i].numero == CountOf(later[..i], later[i].emitterId) + 1 {
      CountSame(later[..i], documents[..i], later[i].emitterId);
    }
  }

  /** Max plus one is count plus one. */
  lemma {:induction false} HighestIsCount(documents: seq<Document>, emitterId: string)
    requires Numbered(documents) && forall i :: 0 <= i < |documents| ==> documents[i].serie == CHECKOUT_SERIE
    ensures HighestNumero(documents, emitterId, CHECKOUT_SERIE) == CountOf(documents, emitterId)
  {
    if documents != [] {
      var front := documents[..|documents| - 1];
      forall i | 0 <= i < |front| ensures front[i].numero == CountOf(front[..i], front[i].emitterId) + 1 {
        assert front[..i] == documents[..i];
      }
      HighestIsCount(front, emitterId);
    }
  }

  /** The numbers of one emitter's documents, in creation order. */
  function NumerosOf(documents: seq<Document>, emitterId: string): seq<nat> {
    if documents == [] then []
    else
      var last := documents[|documents| - 1];
      NumerosOf(documents[..|documents| - 1], emitterId) + (if last.emitterId == emitterId then [last.numero] else [])
  }

  /** They are exactly 1, 2, .., n: no gap and no repeat. */
  lemma {:induction false} NumberedFromOne(documents: seq<Document>, emitterId: string)
    requires Numbered(documents)
    ensures var numeros := NumerosOf(documents, emitterId);
            |numeros| == CountOf(documents, emitterId) && forall i :: 0 <= i < |numeros| ==> numeros[i] == i + 1
  {
    if documents != [] {
      var front := documents[..|documents| - 1];
      forall i | 0 <= i < |front| ensures front[i].numero == CountOf(front[..i], front[i].emitterId) + 1 {
        assert front[..i] == documents[..i];
      }
      NumberedFromOne(front, emitterId);
    }
  }

  lemma {:induction false} CountGrows(documents: seq<Document>, i: nat, emitterId: string)
    requires i <= |documents|
    ensures CountOf(documents[..i], emitterId) <= CountOf(documents, emitterId)
  {
    if i < |documents| {
      assert documents[..|documents| - 1][..i] == documents[..i];
      CountGrows(documents[..|documents| - 1], i, emitterId);
    } else {
      assert documents[..i] == documents;
    }
  }

  lemma CountNext(documents: seq<Document>, i: nat, emitterId: string)
    requires i < |documents|
    ensures CountOf(documents[..i + 1], emitterId) ==
            CountOf(documents[..i], emitterId) + (if documents[i].emitterId == emitterId then 1 else 0)
  {
    assert documents[..i + 1][..i] == documents[..i];
  }

  /** Two documents of one emitter have different numbers, neither above the emitter's count. */
  lemma NumerosDiffer(documents: seq<Document>, i: nat, j: nat)
    requires Numbered(documents) && i < j < |documents| && documents[i].emitterId == documents[j].emitterId
    ensures documents[i].numero < documents[j].numero <= CountOf(documents, documents[i].emitterId)
  {
    hide CountOf;
    var e := documents[i].emitterId;
    CountNext(documents, i, e);
    CountNext(documents, j, e);
    assert documents[..j][..i + 1] == documents[..i + 1];
    CountGrows(documents[..j], i + 1, e);
    CountGrows(documents, j + 1, e);
  }

  lemma CheckoutNumbers(documents: seq<Document>, last: Document)
    requires Numbered(documents) && FindDocument(documents, last.comandaId) == |documents|
    requires last.numero == CountOf(documents, last.emitterId) + 1
    ensures Numbered(documents + [last])
  {
    var later := documents + [last];
    hide CountOf, FindDocument;
    forall i | 0 <= i < |later| ensures later[i].numero == CountOf(later[..i], later[i].emitterId) + 1 {
      assert later[..i] == documents[..i];
      assert documents[..|documents|] == documents;
    }
  }

  lemma CheckoutKeepsInv(s: State, act: Action)
    requires Inv(s) && act.Checkout? && Enabled(s, act)
    ensures Inv(Step(s, act)) && Continues(s.db, Step(s, act).db)
  {
    var later := Step(s, act).db;
    if later != s.db {
      var n := |s.db.documents|;
      forall i | 0 <= i < n ensures s.db.documents[i].serie == CHECKOUT_SERIE {
        assert RowOk(s.db, i);
      }
      hide HighestNumero, RowOk, Carried, EventsOk, CountOf, HolderOk, Numbered;
      HighestIsCount(s.db.documents, act.preferred.value);
      CheckoutKeepsRows(s.db, later, act);
      CheckoutNumbers(s.db.documents, later.documents[n]);
      HoldersStay(s.workers, s.db.documents, later.documents);
    }
  }

  lemma CheckoutKeepsRows(db: FiscalDb, later: FiscalDb, act: Action)
    requires RowsOk(db) && act.Checkout? && act.preferred.Some? && act.preferred.value in db.emitters
    requires later == QueueCheckout(db, act.comandaId, act.terminalId, act.preferred, act.at) && later != db
    ensures RowsOk(later)
  {
    var n := |db.documents|;
    InsertKeepsEvents(db.events, DraftEvent(act.comandaId), Event(act.comandaId, Draft, act.at));
    hide InsertEvent;
    forall i | 0 <= i <= n ensures RowOk(later, i) {
      if i < n {
        assert RowOk(db, i);
        CarriedStays(db.events, later.events, db.documents[i].comandaId, db.documents[i].status);
      }
    }
  }

  lemma HoldersStay(workers: map<WorkerId, Holder>, documents: seq<Document>, later: seq<Document>)
    requires forall w :: w in workers ==> HolderOk(workers[w], documents)
    requires |documents| <= |later| && forall i :: 0 <= i < |documents| ==> SameIdentity(later[i], documents[i])
    ensures forall w :: w in workers ==> HolderOk(workers[w], later)
  {
    forall w | w in workers ensures HolderOk(workers[w], later) {
      var k :| 0 <= k < |documents| && SameIdentity(documents[k], workers[w].held);
      assert SameIdentity(later[k], workers[w].held);
    }
  }

  // ---------- every step keeps it ----------

  /** The holder's document and its place. */
  lemma HeldAt(s: State, w: WorkerId) returns (k: nat)
    requires Inv(s) && w in s.workers
    ensures k == FindDocument(s.db.documents, s.workers[w].held.comandaId) < |s.db.documents|
    ensures SameIdentity(s.db.documents[k], s.workers[w].held) && HolderOk(s.workers[w], s.db.documents)
  {
    hide RowsOk, KeyOk;
    k :| 0 <= k < |s.db.documents| && SameIdentity(s.db.documents[k], s.workers[w].held);
    var f := FindDocument(s.db.documents, s.workers[w].held.comandaId);
    assert !(f < k) && !(k < f);
  }

  lemma ClaimedHolderOk(db: FiscalDb, k: nat, asOf: Time, index: nat)
    requires RowsOk(db) && k < |db.documents| && ClaimRow(db, k, asOf, index).holder.Some?
    ensures HolderOk(ClaimRow(db, k, asOf, index).holder.value, db.documents)
  {
    assert RowOk(db, k) && SameIdentity(db.documents[k], db.documents[k]);
  }

  lemma ClaimKeepsInv(s: State, act: Action)
    requires Inv(s) && act.Claim? && Enabled(s, act)
    ensures Inv(Step(s, act)) && Continues(s.db, Step(s, act).db)
  {
    assert Aligned(s.db);
    hide RowsOk, KeyOk, ClaimRow, HolderOk, Numbered;
    var k := FirstReady(s.db.queue, act.asOf);
    if k < |s.db.queue| {
      ClaimKeepsRows(s.db, k, act.asOf, act.index);
      var claimed := ClaimRow(s.db, k, act.asOf, act.index);
      if claimed.holder.Some? {
        ClaimedHolderOk(s.db, k, act.asOf, act.index);
      }
      NumbersStay(s.db.documents, claimed.db.documents);
      HoldersStay(Step(s, act).workers, s.db.documents, claimed.db.documents);
    }
  }

  lemma ReplyKeepsInv(s: State, act: Action)
    requires Inv(s) && act.Reply? && Enabled(s, act)
    ensures Inv(Step(s, act)) && Continues(s.db, Step(s, act).db)
  {
    var k := HeldAt(s, act.worker);
    var h := s.workers[act.worker];
    assert Aligned(s.db);
    hide RowsOk, KeyOk, Acknowledge, Honest, SameIdentity, Numbered;
    if !act.answer.NotFound? {
      AnswerKeepsRows(s.db, k, h, act.answer, act.printed);
      var later := Acknowledge(s.db, k, h.held, act.answer, act.printed, h.asOf);
      hide HolderOk;
      NumbersStay(s.db.documents, later.documents);
      HoldersStay(s.workers, s.db.documents, later.documents);
    }
  }

  lemma ConfigureKeepsInv(s: State, act: Action)
    requires Inv(s) && act.Configure?
    ensures Inv(Step(s, act)) && Continues(s.db, Step(s, act).db)
  {
    hide KeyOk, Mirrors;
    forall i | 0 <= i < |s.db.documents| ensures RowOk(Step(s, act).db, i) {
      assert RowOk(s.db, i);
    }
  }

  lemma StepKeepsInv(s: State, act: Action)
    requires Inv(s) && Enabled(s, act)
    ensures Inv(Step(s, act)) && Continues(s.db, Step(s, act).db)
  {
    match act
    case Configure(_) => ConfigureKeepsInv(s, act);
    case Checkout(_, _, _, _) => CheckoutKeepsInv(s, act);
    case Claim(_, _, _) => ClaimKeepsInv(s, act);
    case Reply(_, _, _) => ReplyKeepsInv(s, act);
    case Crash(_) =>
      hide RowsOk, KeyOk;
  }

  lemma {:induction false} ReachableState(trace: seq<State>, acts: seq<Action>, i: nat)
    requires IsRun(trace, acts) && i < |trace|
    ensures Inv(trace[i])
  {
    if i > 0 {
      ReachableState(trace, acts, i - 1);
      StepAt(trace, acts, i - 1);
      hide Step, Inv, Enabled;
      StepKeepsInv(trace[i - 1], acts[i - 1]);
    }
  }
}

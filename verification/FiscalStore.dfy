/** The fiscal tables: documents, their queue rows and their event trail, and the patches that move
    a document and its queue row together. */
module FiscalStore {
  import opened Wrappers
  import opened Rows
  import opened Decimal
  import opened NsAccessKey

  datatype FiscalStatus = Draft | Signed | Sent | Authorized | Rejected | Contingency

  datatype Document = Document(
    comandaId: Id,                       // the document is `nfce_<comandaId>`
    emitterId: string,
    terminalId: string,
    serie: string,
    numero: nat,
    status: FiscalStatus,
    accessKey: Option<string>,
    nsReferenceId: Option<string>,
    emissionMode: EmissionMode,
    contingencyRequired: bool,
    contingencyStartedAt: Option<Time>,
    contingencyJustification: Option<string>,
    contingencyPrintedAt: Option<Time>,
    lastErrorCode: Option<string>,
    lastErrorMessage: Option<string>,
    issuedAt: Option<Time>,
    authorizedAt: Option<Time>,
    lastStatusCheckedAt: Option<Time>)

  datatype QueueRow = QueueRow(
    comandaId: Id,
    status: FiscalStatus,
    accessKey: Option<string>,
    emissionMode: EmissionMode,
    contingencyRequired: bool,
    contingencyStartedAt: Option<Time>,
    providerReferenceId: Option<string>,
    leaseExpiresAt: Option<Time>,
    lastErrorCode: Option<string>,
    lastErrorMessage: Option<string>,
    nextRetryAt: Option<Time>,
    issuedAt: Option<Time>,
    authorizedAt: Option<Time>,
    lastStatusCheckedAt: Option<Time>)

  /** The event ids the service makes up; two events with one id are the same row. */
  datatype EventId =
    | DraftEvent(comandaId: Id)
    | SignedEvent(comandaId: Id, index: nat)
    | AuthorizedEvent(comandaId: Id, at: Time)
    | RejectedEvent(comandaId: Id, at: Time)
    | SentEvent(comandaId: Id, at: Time)
    | ContingencyEvent(comandaId: Id, at: Time)
    | MissingEmitterEvent(comandaId: Id)

  datatype Event = Event(comandaId: Id, status: FiscalStatus, occurredAt: Time)

  /** Document i and queue row i belong together; both lists are in creation order. */
  datatype FiscalDb = FiscalDb(
    emitters: set<string>,
    documents: seq<Document>,
    queue: seq<QueueRow>,
    events: map<EventId, Event>)

  /** A property that an update leaves out, or sets. */
  datatype Change<+T> = Keep | To(value: T) {
    function Or(current: T): T {
      if Keep? then current else value
    }
  }

  /** The input of `appendState`. */
  datatype Patch = Patch(
    status: FiscalStatus,
    accessKey: Change<Option<string>>,
    providerReferenceId: Change<Option<string>>,
    emissionMode: Change<EmissionMode>,
    contingencyRequired: Change<bool>,
    contingencyStartedAt: Change<Option<Time>>,
    contingencyJustification: Change<Option<string>>,
    contingencyPrintedAt: Change<Option<Time>>,
    lastErrorCode: Change<Option<string>>,
    lastErrorMessage: Change<Option<string>>,
    leaseExpiresAt: Change<Option<Time>>,
    nextRetryAt: Change<Option<Time>>,
    issuedAt: Change<Option<Time>>,
    authorizedAt: Change<Option<Time>>,
    lastStatusCheckedAt: Change<Option<Time>>)

  const KEEP_ALL: Patch :=
    Patch(Draft, Keep, Keep, Keep, Keep, Keep, Keep, Keep, Keep, Keep, Keep, Keep, Keep, Keep, Keep)

  function PatchedDocument(d: Document, p: Patch): Document {
    d.(status := p.status,
       accessKey := p.accessKey.Or(d.accessKey),
       nsReferenceId := p.providerReferenceId.Or(d.nsReferenceId),
       emissionMode := p.emissionMode.Or(d.emissionMode),
       contingencyRequired := p.contingencyRequired.Or(d.contingencyRequired),
       contingencyStartedAt := p.contingencyStartedAt.Or(d.contingencyStartedAt),
       contingencyJustification := p.contingencyJustification.Or(d.contingencyJustification),
       contingencyPrintedAt := p.contingencyPrintedAt.Or(d.contingencyPrintedAt),
       lastErrorCode := p.lastErrorCode.Or(d.lastErrorCode),
       lastErrorMessage := p.lastErrorMessage.Or(d.lastErrorMessage),
       issuedAt := p.issuedAt.Or(d.issuedAt),
       authorizedAt := p.authorizedAt.Or(d.authorizedAt),
       lastStatusCheckedAt := p.lastStatusCheckedAt.Or(d.lastStatusCheckedAt))
  }

  function PatchedRow(q: QueueRow, p: Patch): QueueRow {
    QueueRow(q.comandaId, p.status,
             p.accessKey.Or(q.accessKey),
             p.emissionMode.Or(q.emissionMode),
             p.contingencyRequired.Or(q.contingencyRequired),
             p.contingencyStartedAt.Or(q.contingencyStartedAt),
             p.providerReferenceId.Or(q.providerReferenceId),
             p.leaseExpiresAt.Or(q.leaseExpiresAt),
             p.lastErrorCode.Or(q.lastErrorCode),
             p.lastErrorMessage.Or(q.lastErrorMessage),
             p.nextRetryAt.Or(q.nextRetryAt),
             p.issuedAt.Or(q.issuedAt),
             p.authorizedAt.Or(q.authorizedAt),
             p.lastStatusCheckedAt.Or(q.lastStatusCheckedAt))
  }

  // ---------- lookups ----------

  function FindDocument(documents: seq<Document>, comandaId: Id): (k: nat)
    ensures k <= |documents|
    ensures k < |documents| ==> documents[k].comandaId == comandaId
    ensures forall i :: 0 <= i < k ==> documents[i].comandaId != comandaId
  {
    if documents == [] || documents[0].comandaId == comandaId then 0 else 1 + FindDocument(documents[1..], comandaId)
  }

  /** The readiness condition of `claimNextReady`. */
  predicate Ready(q: QueueRow, asOf: Time) {
    && (q.status in {Draft, Signed, Sent, Contingency} || (q.status.Rejected? && q.nextRetryAt.Some?))
    && (q.nextRetryAt.None? || q.nextRetryAt.value <= asOf)
    && (q.leaseExpiresAt.None? || q.leaseExpiresAt.value <= asOf)
  }

  function FirstReady(queue: seq<QueueRow>, asOf: Time): (k: nat)
    ensures k <= |queue|
    ensures k < |queue| ==> Ready(queue[k], asOf)
    ensures forall i :: 0 <= i < k ==> !Ready(queue[i], asOf)
  {
    if queue == [] || Ready(queue[0], asOf) then 0 else 1 + FirstReady(queue[1..], asOf)
  }

  // ---------- writes ----------

  /** An event whose id is there already is not inserted. */
  function InsertEvent(events: map<EventId, Event>, id: EventId, event: Event): map<EventId, Event> {
    if id in events then events else events[id := event]
  }

  /** `appendState`: one patch for the document and for its queue row, and one event. */
  function AppendState(db: FiscalDb, k: nat, p: Patch, id: EventId, at: Time): FiscalDb
    requires k < |db.documents| && k < |db.queue|
  {
    db.(documents := db.documents[k := PatchedDocument(db.documents[k], p)],
        queue := db.queue[k := PatchedRow(db.queue[k], p)],
        events := InsertEvent(db.events, id, Event(db.documents[k].comandaId, p.status, at)))
  }

  function Leased(db: FiscalDb, k: nat, lease: Time): FiscalDb
    requires k < |db.queue|
  {
    db.(queue := db.queue[k := db.queue[k].(leaseExpiresAt := Some(lease))])
  }

  /** `COALESCE(MAX(numero), 0) + 1` among the emitter's documents of the serie. */
  function HighestNumero(documents: seq<Document>, emitterId: string, serie: string): nat {
    if documents == [] then 0
    else
      var rest := HighestNumero(documents[..|documents| - 1], emitterId, serie);
      var last := documents[|documents| - 1];
      if last.emitterId == emitterId && last.serie == serie && last.numero > rest then last.numero else rest
  }

  const CHECKOUT_SERIE: string := "1"

  function DraftDocument(comandaId: Id, emitterId: string, terminalId: string, numero: nat): Document {
    Document(comandaId, emitterId, terminalId, CHECKOUT_SERIE, numero, Draft, None, None, Normal, false, None, None, None, None,
             None, None, None, None)
  }

  function DraftRow(comandaId: Id): QueueRow {
    QueueRow(comandaId, Draft, None, Normal, false, None, None, None, None, None, None, None, None, None)
  }

  /** `queueCheckoutNfce`: a comanda's document is created once, with the emitter's next number.
      `preferred` is the enabled emitter with secrets, if there is one. */
  function QueueCheckout(db: FiscalDb, comandaId: Id, terminalId: string, preferred: Option<string>, at: Time): FiscalDb {
    if FindDocument(db.documents, comandaId) < |db.documents| || preferred.None? then db
    else
      var numero := HighestNumero(db.documents, preferred.value, CHECKOUT_SERIE) + 1;
      db.(documents := db.documents + [DraftDocument(comandaId, preferred.value, terminalId, numero)],
          queue := db.queue + [DraftRow(comandaId)],
          events := InsertEvent(db.events, DraftEvent(comandaId), Event(comandaId, Draft, at)))
  }

  // ---------- the provider ----------

  datatype IssueRequest = IssueRequest(
    comandaId: Id,
    emitterId: string,
    terminalId: string,
    serie: string,
    numero: nat,
    issuedAt: Time,
    accessKey: Option<string>,
    emissionMode: EmissionMode,
    contingencyStartedAt: Option<Time>,
    contingencyJustification: Option<string>)

  /** Answers to an issue request and, with `NotFound`, to a status query. A pending query carries
      no reference of its own. */
  datatype Answer =
    | AuthorizedAnswer(nsReferenceId: string, accessKey: string, authorizedAt: Time)
    | PendingAnswer(reference: Option<string>, retryAt: Time)
    | RejectedAnswer(code: string, message: string, retryable: bool, nextRetryAt: Option<Time>)
    | ContingencyAnswer(code: string, message: string, accessKey: string, startedAt: Time, justification: string, retryAt: Time)
    | NotFound

  predicate RetriesLater(answer: Answer, asOf: Time) {
    match answer
    case PendingAnswer(_, retryAt) => retryAt > asOf
    case RejectedAnswer(_, _, retryable, nextRetryAt) => retryable ==> nextRetryAt.Some? && nextRetryAt.value > asOf
    case ContingencyAnswer(_, _, _, _, _, retryAt) => retryAt > asOf
    case _ => true
  }

  /** What the provider keeps to: a given key, dhCont and xJust come back as they were, a missing key is
      built, and every retry lies after the request. */
  predicate HonestIssue(request: IssueRequest, answer: Answer) {
    var key := if request.accessKey.Some? then request.accessKey.value
               else BuildNsAccessKey(request.emitterId, request.terminalId, request.serie, request.numero, request.emissionMode);
    && RetriesLater(answer, request.issuedAt)
    && match answer
       case AuthorizedAnswer(_, accessKey, _) => accessKey == key
       case PendingAnswer(reference, _) => reference.Some?
       case RejectedAnswer(_, _, _, _) => true
       case ContingencyAnswer(_, _, accessKey, startedAt, justification, _) =>
         && accessKey == key
         && (request.contingencyStartedAt.Some? ==> startedAt == request.contingencyStartedAt.value)
         && (request.contingencyJustification.Some? ==> justification == request.contingencyJustification.value)
       case NotFound => false
  }

  predicate HonestQuery(accessKey: string, asOf: Time, answer: Answer) {
    && RetriesLater(answer, asOf)
    && !answer.ContingencyAnswer?
    && (answer.PendingAnswer? ==> answer.reference.None?)
    && (answer.AuthorizedAnswer? ==> answer.accessKey == accessKey)
  }

  // ---------- the patches of the service ----------

  /** `#appendSignedState`: the claim's lease is written again. */
  function SignedPatch(asOf: Time, lease: Time): Patch {
    KEEP_ALL.(status := Signed, issuedAt := To(Some(asOf)), leaseExpiresAt := To(Some(lease)))
  }

  /** `#markEmitterMissing`: the retry time is not touched. */
  const MISSING_EMITTER: Patch :=
    KEEP_ALL.(status := Rejected, lastErrorCode := To(Some("EMITTER_NOT_FOUND")),
              lastErrorMessage := To(Some("Emitente fiscal ausente para processamento.")), leaseExpiresAt := To(None))

  /** `#applyAuthorizedState`, `#applyPendingState`, `#applyRejectedState` and `#enterContingency`.
      `held` is the document read at the claim, `printed` whether the contingency DANFE printed. */
  function AnswerPatch(held: Document, answer: Answer, printed: bool, asOf: Time): Patch {
    match answer
    case AuthorizedAnswer(nsReferenceId, accessKey, authorizedAt) =>
      KEEP_ALL.(status := Authorized, providerReferenceId := To(Some(nsReferenceId)), accessKey := To(Some(accessKey)),
                issuedAt := To(Some(asOf)), authorizedAt := To(Some(authorizedAt)), lastErrorCode := To(None),
                lastErrorMessage := To(None), nextRetryAt := To(None), leaseExpiresAt := To(None),
                lastStatusCheckedAt := To(Some(asOf)))
    case PendingAnswer(reference, retryAt) =>
      KEEP_ALL.(status := Sent, providerReferenceId := To(Some(PendingReference(held, reference))), nextRetryAt := To(Some(retryAt)),
                issuedAt := To(Some(asOf)), leaseExpiresAt := To(None), lastStatusCheckedAt := To(Some(asOf)))
    case RejectedAnswer(code, message, retryable, nextRetryAt) =>
      KEEP_ALL.(status := Rejected, lastErrorCode := To(Some(code)), lastErrorMessage := To(Some(message)),
                nextRetryAt := To(if retryable then Some(nextRetryAt.GetOr(asOf)) else None), leaseExpiresAt := To(None),
                lastStatusCheckedAt := To(Some(asOf)))
    case ContingencyAnswer(code, message, accessKey, startedAt, justification, retryAt) =>
      KEEP_ALL.(status := Contingency, accessKey := To(Some(accessKey)), emissionMode := To(ContingencyOffline),
                contingencyRequired := To(true), contingencyStartedAt := To(Some(startedAt)),
                contingencyJustification := To(Some(justification)),
                contingencyPrintedAt := To(if printed then Some(asOf) else None), lastErrorCode := To(Some(code)),
                lastErrorMessage := To(Some(message)), nextRetryAt := To(Some(retryAt)), issuedAt := To(Some(asOf)),
                leaseExpiresAt := To(None))
    case NotFound => KEEP_ALL.(status := held.status)
  }

  /** A pending query keeps the document's reference, or makes up the provider's. */
  function PendingReference(held: Document, reference: Option<string>): string {
    reference.GetOr(held.nsReferenceId.GetOr("nsref_nfce_" + Print(held.comandaId)))
  }

  function AnswerEvent(comandaId: Id, answer: Answer, asOf: Time): EventId {
    match answer
    case AuthorizedAnswer(_, _, _) => AuthorizedEvent(comandaId, asOf)
    case PendingAnswer(_, _) => SentEvent(comandaId, asOf)
    case RejectedAnswer(_, _, _, _) => RejectedEvent(comandaId, asOf)
    case ContingencyAnswer(_, _, _, _, _, _) => ContingencyEvent(comandaId, asOf)
    case NotFound => DraftEvent(comandaId)
  }

  /** The write that ends a claim. */
  function Acknowledge(db: FiscalDb, k: nat, held: Document, answer: Answer, printed: bool, asOf: Time): FiscalDb
    requires k < |db.documents| && k < |db.queue| && !answer.NotFound?
  {
    AppendState(db, k, AnswerPatch(held, answer, printed, asOf), AnswerEvent(db.documents[k].comandaId, answer, asOf), asOf)
  }

  // ---------- the claim ----------

  const LEASE_MS: nat := 30_000

  datatype Phase = Querying | Issuing

  /** A worker between its claim and its acknowledgement, waiting for the provider. */
  datatype Holder = Holder(held: Document, lease: Time, asOf: Time, phase: Phase)

  datatype Claimed = Claimed(db: FiscalDb, holder: Option<Holder>)

  predicate HasKey(d: Document) {
    d.accessKey.Some? && d.accessKey.value != ""
  }

  /** The synchronous part of a worker iteration: claim row k, read its document, refuse a document
      without emitter, and sign a draft or a rejected one. */
  function ClaimRow(db: FiscalDb, k: nat, asOf: Time, index: nat): (r: Claimed)
    requires k < |db.documents| && k < |db.queue|
    ensures |r.db.documents| == |db.documents| && |r.db.queue| == |db.queue|
  {
    var document := db.documents[k];
    var claimed := Leased(db, k, asOf + LEASE_MS);
    if document.emitterId !in db.emitters then
      Claimed(AppendState(claimed, k, MISSING_EMITTER, MissingEmitterEvent(document.comandaId), asOf), None)
    else if document.status.Contingency? then
      Claimed(claimed, Some(Holder(document, asOf + LEASE_MS, asOf, if HasKey(document) then Querying else Issuing)))
    else if document.status.Draft? || document.status.Rejected? then
      Claimed(AppendState(claimed, k, SignedPatch(asOf, asOf + LEASE_MS), SignedEvent(document.comandaId, index), asOf),
              Some(Holder(document, asOf + LEASE_MS, asOf, Issuing)))
    else Claimed(claimed, Some(Holder(document, asOf + LEASE_MS, asOf, Issuing)))
  }

  /** The request a worker sends: built from the document as it was at the claim. */
  function RequestOf(h: Holder): IssueRequest {
    IssueRequest(h.held.comandaId, h.held.emitterId, h.held.terminalId, h.held.serie, h.held.numero, h.asOf, h.held.accessKey,
                 if h.held.status.Contingency? then ContingencyOffline else h.held.emissionMode,
                 h.held.contingencyStartedAt, h.held.contingencyJustification)
  }

  predicate Honest(h: Holder, answer: Answer) {
    match h.phase
    case Issuing => HonestIssue(RequestOf(h), answer)
    case Querying => HonestQuery(h.held.accessKey.GetOr(""), h.asOf, answer)
  }
}

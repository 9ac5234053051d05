/** What a worker iteration leaves of a document and its queue row, from the provider's answer alone. */
module FiscalAnswers {
  import opened Wrappers
  import opened Rows
  import Decimal
  import opened NsAccessKey
  import opened FiscalStore

  /** The row may be claimed exactly from t on. */
  ghost predicate RetriedFrom(q: QueueRow, t: Time) {
    forall s :: Ready(q, s) <==> s >= t
  }

  ghost predicate NeverReady(q: QueueRow) {
    forall s :: !Ready(q, s)
  }

  /** The reference of a pending document: the answer's, else the one it has, else one made up from its id. */
  predicate PendingUnder(reference: Option<string>, held: Document, given: Option<string>) {
    if given.Some? then reference == given
    else if held.nsReferenceId.Some? then reference == held.nsReferenceId
    else reference == Some("nsref_nfce_" + Decimal.Print(held.comandaId))
  }

  /** An authorization is stored with the provider's reference, key and time, clears the errors, and ends
      the work on the document. */
  ghost predicate AuthorizationStored(before: Document, d: Document, q: QueueRow, answer: Answer, asOf: Time)
    requires answer.AuthorizedAnswer?
  {
    && d.status.Authorized? && q.status.Authorized?
    && d.nsReferenceId == q.providerReferenceId == Some(answer.nsReferenceId)
    && d.accessKey == q.accessKey == Some(answer.accessKey)
    && d.authorizedAt == q.authorizedAt == Some(answer.authorizedAt)
    && d.lastErrorCode.None? && d.lastErrorMessage.None? && q.lastErrorCode.None? && q.lastErrorMessage.None?
    && d.issuedAt == Some(asOf) && d.lastStatusCheckedAt == Some(asOf) && NeverReady(q)
    && d == before.(status := d.status, nsReferenceId := d.nsReferenceId, accessKey := d.accessKey, authorizedAt := d.authorizedAt,
                    lastErrorCode := None, lastErrorMessage := None, issuedAt := d.issuedAt,
                    lastStatusCheckedAt := d.lastStatusCheckedAt)
  }

  /** A pending document is asked for again from the answer's retry time on. */
  ghost predicate PendingStored(held: Document, before: Document, d: Document, q: QueueRow, answer: Answer, asOf: Time)
    requires answer.PendingAnswer?
  {
    && d.status.Sent? && q.status.Sent?
    && d.nsReferenceId == q.providerReferenceId && PendingUnder(d.nsReferenceId, held, answer.reference)
    && d.issuedAt == Some(asOf) && d.lastStatusCheckedAt == Some(asOf) && RetriedFrom(q, answer.retryAt)
    && d == before.(status := d.status, nsReferenceId := d.nsReferenceId, issuedAt := d.issuedAt,
                    lastStatusCheckedAt := d.lastStatusCheckedAt)
  }

  /** A rejection is stored with its code and message; it is tried again from its retry time on if it is
      retryable, and never otherwise. */
  ghost predicate RejectionStored(before: Document, d: Document, q: QueueRow, answer: Answer, asOf: Time)
    requires answer.RejectedAnswer?
  {
    && d.status.Rejected? && q.status.Rejected?
    && d.lastErrorCode == q.lastErrorCode == Some(answer.code)
    && d.lastErrorMessage == q.lastErrorMessage == Some(answer.message)
    && d.lastStatusCheckedAt == Some(asOf)
    && (if answer.retryable then RetriedFrom(q, answer.nextRetryAt.GetOr(asOf)) else NeverReady(q))
    && d == before.(status := d.status, lastErrorCode := d.lastErrorCode, lastErrorMessage := d.lastErrorMessage,
                    lastStatusCheckedAt := d.lastStatusCheckedAt)
  }

  /** A contingency is stored with the answer's key, start and justification, says whether its DANFE printed,
      and is sent again from the answer's retry time on. */
  ghost predicate ContingencyStored(before: Document, d: Document, q: QueueRow, answer: Answer, printed: bool, asOf: Time)
    requires answer.ContingencyAnswer?
  {
    && d.status.Contingency? && q.status.Contingency? && d.accessKey == q.accessKey == Some(answer.accessKey)
    && d.emissionMode.ContingencyOffline? && q.emissionMode.ContingencyOffline? && d.contingencyRequired && q.contingencyRequired
    && d.contingencyStartedAt == q.contingencyStartedAt == Some(answer.startedAt)
    && d.contingencyJustification == Some(answer.justification)
    && d.contingencyPrintedAt == (if printed then Some(asOf) else None)
    && d.lastErrorCode == q.lastErrorCode == Some(answer.code)
    && d.lastErrorMessage == q.lastErrorMessage == Some(answer.message)
    && d.issuedAt == Some(asOf) && RetriedFrom(q, answer.retryAt)
    && d == before.(status := d.status, accessKey := d.accessKey, emissionMode := d.emissionMode, contingencyRequired := true,
                    contingencyStartedAt := d.contingencyStartedAt, contingencyJustification := d.contingencyJustification,
                    contingencyPrintedAt := d.contingencyPrintedAt, lastErrorCode := d.lastErrorCode,
                    lastErrorMessage := d.lastErrorMessage, issuedAt := d.issuedAt)
  }

  ghost predicate Stored(held: Document, before: Document, d: Document, q: QueueRow, answer: Answer, printed: bool, asOf: Time) {
    match answer
    case AuthorizedAnswer(_, _, _) => AuthorizationStored(before, d, q, answer, asOf)
    case PendingAnswer(_, _) => PendingStored(held, before, d, q, answer, asOf)
    case RejectedAnswer(_, _, _, _) => RejectionStored(before, d, q, answer, asOf)
    case ContingencyAnswer(_, _, _, _, _, _) => ContingencyStored(before, d, q, answer, printed, asOf)
    case NotFound => false
  }

  /** The acknowledgement of any answer stores it. */
  lemma AnswerStored(db: FiscalDb, k: nat, held: Document, answer: Answer, printed: bool, asOf: Time)
    requires k < |db.documents| && k < |db.queue| && !answer.NotFound?
    ensures var later := Acknowledge(db, k, held, answer, printed, asOf);
            Stored(held, db.documents[k], later.documents[k], later.queue[k], answer, printed, asOf)
  {
    var p := AnswerPatch(held, answer, printed, asOf);
    PatchStored(held, db.documents[k], db.queue[k], answer, printed, asOf);
    hide AnswerPatch, AnswerEvent, PatchedDocument, PatchedRow, InsertEvent, Stored;
  }

  lemma PatchStored(held: Document, d: Document, q: QueueRow, answer: Answer, printed: bool, asOf: Time)
    requires !answer.NotFound?
    ensures var p := AnswerPatch(held, answer, printed, asOf);
            Stored(held, d, PatchedDocument(d, p), PatchedRow(q, p), answer, printed, asOf)
  {
    match answer
    case AuthorizedAnswer(_, _, _) =>
    case PendingAnswer(reference, _) => PendingReferenceGiven(held, reference);
    case RejectedAnswer(_, _, _, _) =>
    case ContingencyAnswer(_, _, _, _, _, _) =>
  }

  lemma PendingReferenceGiven(held: Document, reference: Option<string>)
    ensures PendingUnder(Some(PendingReference(held, reference)), held, reference)
  {
  }

  /** A worker that dies before its answer leaves the row to be claimed again exactly from the end of its
      half-minute lease on. */
  lemma AbandonedRetried(db: FiscalDb, k: nat, asOf: Time, index: nat)
    requires k < |db.documents| && k < |db.queue| && db.documents[k].emitterId in db.emitters
    requires Ready(db.queue[k], asOf) && db.queue[k].status == db.documents[k].status
    ensures RetriedFrom(ClaimRow(db, k, asOf, index).db.queue[k], asOf + 30_000)
  {
    hide InsertEvent, PatchedDocument;
  }
}

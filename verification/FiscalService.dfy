/** The fiscal repositories and the worker cycle, statement by statement, against the table functions. */
module FiscalService {
  import opened Wrappers
  import opened Rows
  import opened FiscalStore
  import opened FiscalWorkers
  import FiscalAnswers
  import FiscalSafety

  datatype Kind = AuthorizedKind | RejectedKind | PendingKind | ContingencyKind

  /** What the provider says to the job of one iteration: to the status query, when one is made, and to
      the issue request, when one is made; and whether a contingency DANFE prints. */
  datatype Response = Response(query: Answer, issue: Answer, printed: bool)

  predicate Asks(h: Holder, r: Response) {
    h.phase.Querying? && !r.query.NotFound?
  }

  function FinalAnswer(h: Holder, r: Response): Answer {
    if Asks(h, r) then r.query else r.issue
  }

  /** The provider keeps its contract for every call that is made. */
  predicate HonestResponse(h: Holder, r: Response) {
    && (h.phase.Querying? ==> Honest(h, r.query))
    && (!Asks(h, r) ==> Honest(h.(phase := Issuing), r.issue))
  }

  function KindOf(answer: Answer): Kind {
    match answer
    case AuthorizedAnswer(_, _, _) => AuthorizedKind
    case PendingAnswer(_, _) => PendingKind
    case RejectedAnswer(_, _, _, _) => RejectedKind
    case ContingencyAnswer(_, _, _, _, _, _) => ContingencyKind
    case NotFound => PendingKind
  }

  /** The status a job is left in, by the kind under which it is counted. */
  function StatusOfKind(kind: Kind): FiscalStatus {
    match kind
    case AuthorizedKind => Authorized
    case RejectedKind => Rejected
    case PendingKind => Sent
    case ContingencyKind => Contingency
  }

  datatype Processed = Processed(db: FiscalDb, kind: Kind)

  /** One iteration on row k. */
  function ProcessRow(db: FiscalDb, k: nat, asOf: Time, index: nat, r: Response): (done: Processed)
    requires k < |db.documents| && k < |db.queue|
    ensures |done.db.documents| == |db.documents| && |done.db.queue| == |db.queue|
  {
    hide ClaimRow, AnswerPatch, FinalAnswer;
    var claimed := ClaimRow(db, k, asOf, index);
    if claimed.holder.None? then Processed(claimed.db, RejectedKind)
    else
      var h := claimed.holder.value;
      var answer := FinalAnswer(h, r);
      if answer.NotFound? then Processed(claimed.db, PendingKind)
      else Processed(Acknowledge(claimed.db, k, h.held, answer, r.printed, asOf), KindOf(answer))
  }

  predicate HonestFor(db: FiscalDb, k: nat, asOf: Time, index: nat, r: Response)
    requires k < |db.documents| && k < |db.queue|
  {
    var holder := ClaimRow(db, k, asOf, index).holder;
    holder.Some? ==> HonestResponse(holder.value, r)
  }

  // ---------- one iteration ----------

  /** An honest iteration signs or queries, acknowledges, and leaves its row not ready at that time; the
      emitter is never missing. */
  lemma ProcessedRow(db: FiscalDb, k: nat, asOf: Time, index: nat, r: Response)
    requires RowsOk(db) && k < |db.documents| && Ready(db.queue[k], asOf) && HonestFor(db, k, asOf, index, r)
    ensures var done := ProcessRow(db, k, asOf, index, r);
            && ClaimRow(db, k, asOf, index).holder.Some?
            && RowsOk(done.db) && FiscalSafety.OnlyRow(db, done.db, k)
            && !Ready(done.db.queue[k], asOf) && done.db.queue[k].status == StatusOfKind(done.kind)
  {
    hide RowsOk, RowOk, ClaimRow, Honest, KeyOk, AnswerPatch, PatchedDocument, PatchedRow, FinalAnswer, Asks, HonestResponse, Ready,
      FiscalSafety.StepKeepsFaith, FiscalSafety.LockedAt, AnswerEvent, InsertEvent, StatusOfKind, KindOf, Continues;
    FiscalSafety.ClaimLocks(db, k, asOf, index);
    ClaimKeepsRows(db, k, asOf, index);
    var claimed := ClaimRow(db, k, asOf, index);
    var h := claimed.holder.value;
    var answer := FinalAnswer(h, r);
    HeldCopy(db, k, asOf, index);
    FinalIsHonest(h, r);
    var asked := if Asks(h, r) then h else h.(phase := Issuing);
    AnswerKeepsRows(claimed.db, k, asked, answer, r.printed);
    AnsweredNotReady(claimed.db.queue[k], h, answer, r.printed);
  }

  lemma HeldCopy(db: FiscalDb, k: nat, asOf: Time, index: nat)
    requires RowsOk(db) && k < |db.documents| && ClaimRow(db, k, asOf, index).holder.Some?
    ensures var claimed := ClaimRow(db, k, asOf, index); var h := claimed.holder.value;
            && k < |claimed.db.documents| && SameIdentity(claimed.db.documents[k], h.held) && KeyOk(h.held) && h.asOf == asOf
            && (h.phase.Querying? ==> h.held.status.Contingency? && HasKey(h.held))
  {
    assert RowOk(db, k);
  }

  lemma FinalIsHonest(h: Holder, r: Response)
    requires HonestResponse(h, r)
    ensures !FinalAnswer(h, r).NotFound? && RetriesLater(FinalAnswer(h, r), h.asOf)
    ensures Honest(if Asks(h, r) then h else h.(phase := Issuing), FinalAnswer(h, r))
  {
  }

  lemma AnsweredNotReady(q: QueueRow, h: Holder, answer: Answer, printed: bool)
    requires !answer.NotFound? && RetriesLater(answer, h.asOf)
    ensures var after := PatchedRow(q, AnswerPatch(h.held, answer, printed, h.asOf));
            !Ready(after, h.asOf) && after.status == StatusOfKind(KindOf(answer))
  {
  }

  /** The answer that decides an iteration: the status query's for a contingency with a key, unless it finds
      nothing, else the one to the issue request. */
  function DecidingAnswer(d: Document, r: Response): Answer {
    if d.status.Contingency? && d.accessKey.Some? && d.accessKey.value != "" && !r.query.NotFound? then r.query else r.issue
  }

  /** A draft or a rejected document is signed before it is sent. */
  function SignedForm(d: Document, asOf: Time): Document {
    if d.status.Draft? || d.status.Rejected? then d.(status := Signed, issuedAt := Some(asOf)) else d
  }

  /** What an iteration leaves of the document d: the deciding answer is stored on it, or it is rejected for
      want of its emitter. */
  ghost predicate IterationStored(emitters: set<string>, d: Document, later: Document, row: QueueRow, r: Response, asOf: Time) {
    if d.emitterId in emitters then
      FiscalAnswers.Stored(d, SignedForm(d, asOf), later, row, DecidingAnswer(d, r), r.printed, asOf)
    else
      && later == d.(status := Rejected, lastErrorCode := Some("EMITTER_NOT_FOUND"), lastErrorMessage := later.lastErrorMessage)
      && row.status.Rejected? && row.lastErrorCode == Some("EMITTER_NOT_FOUND") && row.leaseExpiresAt.None?
  }

  lemma ClaimedForm(db: FiscalDb, k: nat, asOf: Time, index: nat)
    requires k < |db.documents| && k < |db.queue| && db.documents[k].emitterId in db.emitters
    ensures var claimed := ClaimRow(db, k, asOf, index);
            && claimed.holder.Some? && claimed.holder.value.held == db.documents[k] && claimed.holder.value.asOf == asOf
            && claimed.db.documents[k] == SignedForm(db.documents[k], asOf)
            && (claimed.holder.value.phase.Querying? <==> db.documents[k].status.Contingency? && HasKey(db.documents[k]))
  {
    hide InsertEvent, PatchedRow;
  }

  lemma RowStored(db: FiscalDb, k: nat, asOf: Time, index: nat, r: Response)
    requires k < |db.documents| && k < |db.queue| && HonestFor(db, k, asOf, index, r)
    ensures var later := ProcessRow(db, k, asOf, index, r).db;
            IterationStored(db.emitters, db.documents[k], later.documents[k], later.queue[k], r, asOf)
  {
    hide Honest, HonestResponse, FiscalAnswers.Stored, AnswerPatch, AnswerEvent, Acknowledge, InsertEvent, SignedForm;
    var d := db.documents[k];
    if d.emitterId in db.emitters {
      hide ClaimRow;
      ClaimedForm(db, k, asOf, index);
      var claimed := ClaimRow(db, k, asOf, index);
      FinalIsHonest(claimed.holder.value, r);
      assert FinalAnswer(claimed.holder.value, r) == DecidingAnswer(d, r);
      FiscalAnswers.AnswerStored(claimed.db, k, d, DecidingAnswer(d, r), r.printed, asOf);
    } else {
      EmitterMissing(db, k, asOf, index);
    }
  }

  lemma EmitterMissing(db: FiscalDb, k: nat, asOf: Time, index: nat)
    requires k < |db.documents| && k < |db.queue| && db.documents[k].emitterId !in db.emitters
    ensures var claimed := ClaimRow(db, k, asOf, index); var (d, later, row) := (db.documents[k], claimed.db.documents[k], claimed.db.queue[k]);
            && claimed.holder.None?
            && later == d.(status := Rejected, lastErrorCode := Some("EMITTER_NOT_FOUND"), lastErrorMessage := later.lastErrorMessage)
            && row.status.Rejected? && row.lastErrorCode == Some("EMITTER_NOT_FOUND") && row.leaseExpiresAt.None?
  {
    hide InsertEvent;
  }

  lemma SameComanda(d: Document, p: Patch)
    ensures PatchedDocument(d, p).comandaId == d.comandaId
  {
  }

  // ---------- one cycle ----------

  /** The tables, the kinds counted, and the rows processed. */
  datatype Progress = Progress(db: FiscalDb, kinds: seq<Kind>, jobs: seq<QueueRow>, positions: seq<nat>)

  /** The worker loop as a recursion: one more response, one more claim. */
  function RunCycle(db: FiscalDb, asOf: Time, provider: seq<Response>): (done: Progress)
    requires Aligned(db)
    ensures Aligned(done.db)
  {
    if provider == [] then Progress(db, [], [], [])
    else
      var done := RunCycle(db, asOf, provider[..|provider| - 1]);
      var k := FirstReady(done.db.queue, asOf);
      if k == |done.db.queue| then done
      else
        var processed := ProcessRow(done.db, k, asOf, |done.kinds|, provider[|provider| - 1]);
        Progress(processed.db, done.kinds + [processed.kind], done.jobs + [processed.db.queue[k]], done.positions + [k])
  }

  predicate HonestCycle(db: FiscalDb, asOf: Time, provider: seq<Response>)
    requires Aligned(db)
  {
    provider == []
    || (&& HonestCycle(db, asOf, provider[..|provider| - 1])
        && var done := RunCycle(db, asOf, provider[..|provider| - 1]);
           var k := FirstReady(done.db.queue, asOf);
           k < |done.db.queue| ==> HonestFor(done.db, k, asOf, |done.kinds|, provider[|provider| - 1]))
  }

  /** Rows before the frontier are not ready any more, rows from it on are untouched; the processed rows
      were ready, in creation order, each once, and are left in the status they are counted under. */
  ghost predicate SoFar(before: FiscalDb, done: Progress, frontier: nat, asOf: Time) {
    var now := done.db;
    && Aligned(before) && Aligned(now) && |now.queue| == |before.queue| && frontier <= |now.queue|
    && |done.kinds| == |done.jobs| == |done.positions|
    && (forall k :: 0 <= k < frontier ==> !Ready(now.queue[k], asOf))
    && (forall k :: 0 <= k < |now.queue| && (k >= frontier || k !in done.positions) ==>
          now.queue[k] == before.queue[k] && now.documents[k] == before.documents[k])
    && (forall i, j :: 0 <= i < j < |done.positions| ==> done.positions[i] < done.positions[j])
    && (forall n :: 0 <= n < |done.positions| ==> JobDone(before, now, done.positions[n], frontier, done.jobs[n], done.kinds[n], asOf))
  }

  predicate JobDone(before: FiscalDb, now: FiscalDb, k: nat, frontier: nat, job: QueueRow, kind: Kind, asOf: Time) {
    && k < frontier && k < |before.queue| && k < |now.queue|
    && Ready(before.queue[k], asOf) && now.queue[k] == job && job.status == StatusOfKind(kind)
  }

  lemma CycleStep(before: FiscalDb, done: Progress, frontier: nat, asOf: Time, processed: Processed)
    requires SoFar(before, done, frontier, asOf) && FirstReady(done.db.queue, asOf) < |done.db.queue|
    requires var k := FirstReady(done.db.queue, asOf);
             && FiscalSafety.OnlyRow(done.db, processed.db, k)
             && !Ready(processed.db.queue[k], asOf) && processed.db.queue[k].status == StatusOfKind(processed.kind)
    ensures var k := FirstReady(done.db.queue, asOf);
            var next := Progress(processed.db, done.kinds + [processed.kind], done.jobs + [processed.db.queue[k]], done.positions + [k]);
            SoFar(before, next, k + 1, asOf)
  {
    hide StatusOfKind, Ready;
    var k := FirstReady(done.db.queue, asOf);
    var next := Progress(processed.db, done.kinds + [processed.kind], done.jobs + [processed.db.queue[k]], done.positions + [k]);
    assert k >= frontier;
    JobsStayDone(before, done, frontier, asOf, processed, k);
    hide JobDone, FirstReady;
    forall i | 0 <= i < |next.db.queue| && (i >= k + 1 || i !in next.positions)
      ensures next.db.queue[i] == before.queue[i] && next.db.documents[i] == before.documents[i] {
      assert next.positions[|done.positions|] == k;
      assert i !in done.positions || i >= frontier;
    }
  }

  lemma JobsStayDone(before: FiscalDb, done: Progress, frontier: nat, asOf: Time, processed: Processed, k: nat)
    requires SoFar(before, done, frontier, asOf) && frontier <= k < |done.db.queue| && Ready(done.db.queue[k], asOf)
    requires FiscalSafety.OnlyRow(done.db, processed.db, k) && processed.db.queue[k].status == StatusOfKind(processed.kind)
    ensures var jobs := done.jobs + [processed.db.queue[k]];
            var kinds, positions := done.kinds + [processed.kind], done.positions + [k];
            forall n :: 0 <= n < |positions| ==> JobDone(before, processed.db, positions[n], k + 1, jobs[n], kinds[n], asOf)
  {
    hide Ready, StatusOfKind;
    var positions := done.positions + [k];
    forall n | 0 <= n < |positions|
      ensures JobDone(before, processed.db, positions[n], k + 1, (done.jobs + [processed.db.queue[k]])[n],
                      (done.kinds + [processed.kind])[n], asOf) {
      if n < |done.positions| {
        assert JobDone(before, done.db, done.positions[n], frontier, done.jobs[n], done.kinds[n], asOf);
      }
    }
  }

  lemma NothingDone(before: FiscalDb, asOf: Time)
    requires Aligned(before)
    ensures SoFar(before, Progress(before, [], [], []), 0, asOf)
  {
  }

  lemma NextRow(before: FiscalDb, done: Progress, frontier: nat, asOf: Time, r: Response) returns (next: nat)
    requires Aligned(done.db) && RowsOk(done.db) && SoFar(before, done, frontier, asOf)
    requires FirstReady(done.db.queue, asOf) < |done.db.queue|
    requires HonestFor(done.db, FirstReady(done.db.queue, asOf), asOf, |done.kinds|, r)
    ensures var k := FirstReady(done.db.queue, asOf);
            var processed := ProcessRow(done.db, k, asOf, |done.kinds|, r);
            && RowsOk(processed.db) && k < |processed.db.queue|
            && SoFar(before, Progress(processed.db, done.kinds + [processed.kind], done.jobs + [processed.db.queue[k]],
                                      done.positions + [k]), next, asOf)
  {
    hide ProcessRow, Ready, SoFar, HonestFor, RowsOk, FirstReady, ClaimRow, FiscalSafety.OnlyRow, StatusOfKind;
    var k := FirstReady(done.db.queue, asOf);
    ProcessedRow(done.db, k, asOf, |done.kinds|, r);
    CycleStep(before, done, frontier, asOf, ProcessRow(done.db, k, asOf, |done.kinds|, r));
    next := k + 1;
  }

  /** One cycle under the provider's contract: every document is handled at most once and in creation
      order, everything else is untouched, and stopping early means that nothing is ready any more. */
  lemma {:induction false} CycleProperties(before: FiscalDb, asOf: Time, provider: seq<Response>) returns (frontier: nat)
    requires RowsOk(before) && HonestCycle(before, asOf, provider)
    ensures var done := RunCycle(before, asOf, provider);
            && RowsOk(done.db) && SoFar(before, done, frontier, asOf) && |done.kinds| <= |provider|
            && (|done.kinds| < |provider| ==> FirstReady(done.db.queue, asOf) == |done.db.queue|)
    decreases |provider|
  {
    assert Aligned(before);
    hide RowsOk, ProcessRow, Ready, SoFar, HonestFor;
    if provider == [] {
      assert SoFar(before, RunCycle(before, asOf, []), 0, asOf) by { NothingDone(before, asOf); }
      frontier := 0;
    } else {
      var done := RunCycle(before, asOf, provider[..|provider| - 1]);
      frontier := CycleProperties(before, asOf, provider[..|provider| - 1]);
      var k := FirstReady(done.db.queue, asOf);
      if k < |done.db.queue| {
        frontier := NextRow(before, done, frontier, asOf, provider[|provider| - 1]);
      }
    }
  }

  /** Once nothing is ready, further responses change nothing. */
  lemma {:induction false} CycleStops(db: FiscalDb, asOf: Time, provider: seq<Response>, n: nat)
    requires Aligned(db) && n <= |provider|
    requires var done := RunCycle(db, asOf, provider[..n]); FirstReady(done.db.queue, asOf) == |done.db.queue|
    ensures RunCycle(db, asOf, provider) == RunCycle(db, asOf, provider[..n])
    decreases |provider|
  {
    hide ProcessRow, FirstReady;
    if n < |provider| {
      assert provider[..|provider| - 1][..n] == provider[..n];
      CycleStops(db, asOf, provider[..|provider| - 1], n);
    } else {
      assert provider[..n] == provider;
    }
  }

  // ---------- counts ----------

  function CountKind(kinds: seq<Kind>, kind: Kind): nat {
    if kinds == [] then 0 else CountKind(kinds[..|kinds| - 1], kind) + (if kinds[|kinds| - 1] == kind then 1 else 0)
  }

  lemma CountMore(kinds: seq<Kind>, kind: Kind, k: Kind)
    ensures CountKind(kinds + [kind], k) == CountKind(kinds, k) + (if kind == k then 1 else 0)
  {
    assert (kinds + [kind])[..|kinds|] == kinds;
  }

  /** Every job is counted under exactly one heading. */
  lemma {:induction false} CountsAddUp(kinds: seq<Kind>)
    ensures |kinds| == CountKind(kinds, AuthorizedKind) + CountKind(kinds, RejectedKind)
                       + CountKind(kinds, PendingKind) + CountKind(kinds, ContingencyKind)
  {
    if kinds != [] {
      CountsAddUp(kinds[..|kinds| - 1]);
    }
  }

  datatype CycleResult = CycleResult(
    processedCount: nat,
    authorizedCount: nat,
    rejectedCount: nat,
    pendingCount: nat,
    contingencyCount: nat,
    jobs: seq<QueueRow>)

  // ---------- the classes ----------

  /** The document and queue repositories over their shared tables. */
  class FiscalRepository {
    var db: FiscalDb

    constructor ()
      ensures RowsOk(db) && Numbered(db.documents) && db == FiscalDb({}, [], [], map[])
    {
      db := FiscalDb({}, [], [], map[]);
    }

    /** `claimNextReady`: the first ready row in creation order is leased. */
    method ClaimNextReady(asOf: Time, leaseExpiresAt: Time) returns (claimed: Option<nat>)
      modifies this
      ensures var k := FirstReady(old(db).queue, asOf);
              && (claimed.None? <==> k == |old(db).queue|)
              && (claimed.None? ==> db == old(db))
              && (claimed.Some? ==> claimed.value == k && db == Leased(old(db), k, leaseExpiresAt))
    {
      var k := FirstReady(db.queue, asOf);
      if k == |db.queue| {
        return None;
      }
      db := Leased(db, k, leaseExpiresAt);
      return Some(k);
    }

    /** `getNextDocumentNumber`: one above the highest number of the emitter and serie. */
    method GetNextDocumentNumber(emitterId: string, serie: string) returns (numero: nat)
      ensures numero == HighestNumero(db.documents, emitterId, serie) + 1
    {
      var currentMax := 0;
      for i := 0 to |db.documents|
        invariant currentMax == HighestNumero(db.documents[..i], emitterId, serie)
      {
        assert db.documents[..i + 1][..i] == db.documents[..i];
        var document := db.documents[i];
        if document.emitterId == emitterId && document.serie == serie && document.numero > currentMax {
          currentMax := document.numero;
        }
      }
      assert db.documents[..|db.documents|] == db.documents;
      numero := currentMax + 1;
    }

    /** `saveDraft`: the document, its queue row and its first event in one transaction. */
    method SaveDraft(document: Document, row: QueueRow, id: EventId, event: Event)
      modifies this
      ensures db == old(db).(documents := old(db).documents + [document], queue := old(db).queue + [row],
                             events := InsertEvent(old(db).events, id, event))
    {
      db := db.(documents := db.documents + [document]);
      db := db.(queue := db.queue + [row]);
      db := db.(events := InsertEvent(db.events, id, event));
    }

    /** `appendState`: both updates and the event in one transaction. */
    method Append(k: nat, patch: Patch, id: EventId, at: Time)
      requires k < |db.documents| && k < |db.queue|
      modifies this
      ensures db == AppendState(old(db), k, patch, id, at)
    {
      var comandaId := db.documents[k].comandaId;
      db := db.(documents := db.documents[k := PatchedDocument(db.documents[k], patch)]);
      db := db.(queue := db.queue[k := PatchedRow(db.queue[k], patch)]);
      db := db.(events := InsertEvent(db.events, id, Event(comandaId, patch.status, at)));
    }
  }

  lemma CheckoutKeeps(db: FiscalDb, comandaId: Id, terminalId: string, preferred: Option<string>, at: Time)
    requires RowsOk(db) && Numbered(db.documents) && (preferred.Some? ==> preferred.value in db.emitters)
    ensures var later := QueueCheckout(db, comandaId, terminalId, preferred, at); RowsOk(later) && Numbered(later.documents)
  {
    hide RowsOk, Numbered, HolderOk, QueueCheckout, Continues;
    assert HoldersOk(State(db, map[]));
    CheckoutKeepsInv(State(db, map[]), Checkout(comandaId, terminalId, preferred, at));
  }

  class FiscalQueueService {
    const repository: FiscalRepository

    constructor (repository: FiscalRepository)
      ensures this.repository == repository
    {
      this.repository := repository;
    }

    /** `queueCheckoutNfce`: the comanda's document if it has one, else a draft with the next number;
        nothing without a preferred emitter. */
    method QueueCheckoutNfce(comandaId: Id, terminalId: string, preferred: Option<string>, at: Time) returns (document: Option<Document>)
      requires RowsOk(repository.db) && Numbered(repository.db.documents)
      requires preferred.Some? ==> preferred.value in repository.db.emitters
      modifies repository
      ensures repository.db == QueueCheckout(old(repository.db), comandaId, terminalId, preferred, at)
      ensures RowsOk(repository.db) && Numbered(repository.db.documents)
      ensures var k := FindDocument(repository.db.documents, comandaId);
              document == if k < |repository.db.documents| then Some(repository.db.documents[k]) else None
      ensures FindDocument(old(repository.db.documents), comandaId) < |old(repository.db.documents)| ==> repository.db == old(repository.db)
      ensures FindDocument(old(repository.db.documents), comandaId) == |old(repository.db.documents)| ==>
                && (document.Some? <==> preferred.Some?)
                && (document.Some? ==>
                      && document.value.comandaId == comandaId && document.value.terminalId == terminalId
                      && document.value.emitterId == preferred.value && document.value.status.Draft?
                      && document.value.accessKey.None? && document.value.emissionMode.Normal?
                      && Ready(repository.db.queue[|repository.db.queue| - 1], at))
    {
      hide RowsOk, Numbered, HighestNumero, InsertEvent, FindDocument;
      CheckoutKeeps(repository.db, comandaId, terminalId, preferred, at);
      var k := FindDocument(repository.db.documents, comandaId);
      if k < |repository.db.documents| {
        return Some(repository.db.documents[k]);
      }
      if preferred.None? {
        return None;
      }
      var numero := repository.GetNextDocumentNumber(preferred.value, CHECKOUT_SERIE);
      var draft := DraftDocument(comandaId, preferred.value, terminalId, numero);
      repository.SaveDraft(draft, DraftRow(comandaId), DraftEvent(comandaId), Event(comandaId, Draft, at));
      assert repository.db.documents[k] == draft;
      return Some(draft);
    }

    /** One iteration of the worker loop; `None` when nothing is ready. */
    method ProcessNext(asOf: Time, index: nat, r: Response) returns (kind: Option<Kind>, job: Option<QueueRow>)
      requires Aligned(repository.db)
      requires var k := FirstReady(repository.db.queue, asOf);
               k < |repository.db.queue| ==> HonestFor(repository.db, k, asOf, index, r)
      modifies repository
      ensures var before := old(repository.db);
              var k := FirstReady(before.queue, asOf);
              if k == |before.queue| then kind.None? && repository.db == before
              else
                && Processed(repository.db, kind.GetOr(PendingKind)) == ProcessRow(before, k, asOf, index, r)
                && kind.Some? && k < |repository.db.queue| && job == Some(repository.db.queue[k])
                && IterationStored(before.emitters, before.documents[k], repository.db.documents[k], repository.db.queue[k], r, asOf)
    {
      hide AnswerPatch, SignedPatch, FirstReady, PatchedDocument, PatchedRow, InsertEvent, Ready, FinalAnswer, HonestResponse,
        IterationStored;
      ghost var before := repository.db;
      if FirstReady(before.queue, asOf) < |before.queue| {
        RowStored(before, FirstReady(before.queue, asOf), asOf, index, r);
      }
      var claimed := repository.ClaimNextReady(asOf, asOf + LEASE_MS);
      if claimed.None? {
        return None, None;
      }
      var k := claimed.value;
      var document := repository.db.documents[k];
      if document.emitterId !in repository.db.emitters {
        repository.Append(k, MISSING_EMITTER, MissingEmitterEvent(document.comandaId), asOf);
        return Some(RejectedKind), Some(repository.db.queue[k]);
      }
      var holder := Holder(document, asOf + LEASE_MS, asOf, if document.status.Contingency? && HasKey(document) then Querying else Issuing);
      if document.status.Draft? || document.status.Rejected? {
        repository.Append(k, SignedPatch(asOf, asOf + LEASE_MS), SignedEvent(document.comandaId, index), asOf);
      }
      assert ClaimRow(before, k, asOf, index) == Claimed(repository.db, Some(holder));
      SameComanda(document, SignedPatch(asOf, asOf + LEASE_MS));
      var answer := FinalAnswer(holder, r);
      FinalIsHonest(holder, r);
      repository.Append(k, AnswerPatch(document, answer, r.printed, asOf), AnswerEvent(document.comandaId, answer, asOf), asOf);
      return Some(KindOf(answer)), Some(repository.db.queue[k]);
    }

    /** `processQueue` with its four counters. */
    method ProcessQueue(asOf: Time, limit: nat, provider: seq<Response>) returns (result: CycleResult, ghost done: Progress)
      requires RowsOk(repository.db) && |provider| == limit && HonestCycle(repository.db, asOf, provider)
      modifies repository
      ensures done == RunCycle(old(repository.db), asOf, provider) && repository.db == done.db && result.jobs == done.jobs
      ensures result.processedCount == |done.kinds|
      ensures result.authorizedCount == CountKind(done.kinds, AuthorizedKind)
      ensures result.rejectedCount == CountKind(done.kinds, RejectedKind)
      ensures result.pendingCount == CountKind(done.kinds, PendingKind)
      ensures result.contingencyCount == CountKind(done.kinds, ContingencyKind)
    {
      assert Aligned(repository.db);
      hide ProcessRow, FirstReady, HonestFor, RowsOk, RowOk, Ready, RunCycle, HonestCycle, CountKind, ClaimRow;
      ghost var before := repository.db;
      var jobs: seq<QueueRow> := [];
      var authorizedCount, rejectedCount, pendingCount, contingencyCount := 0, 0, 0, 0;
      done := Progress(before, [], [], []);
      NothingRun(before, asOf, provider);
      for index := 0 to limit
        invariant Aligned(before) && done == RunCycle(before, asOf, provider[..index])
        invariant repository.db == done.db && jobs == done.jobs && |done.kinds| == |jobs| == index
        invariant authorizedCount == CountKind(done.kinds, AuthorizedKind)
        invariant rejectedCount == CountKind(done.kinds, RejectedKind)
        invariant pendingCount == CountKind(done.kinds, PendingKind)
        invariant contingencyCount == CountKind(done.kinds, ContingencyKind)
      {
        OneMoreRun(before, asOf, provider, index);
        ghost var k := FirstReady(repository.db.queue, asOf);
        var kind, job := ProcessNext(asOf, index, provider[index]);
        if kind.None? {
          CycleStops(before, asOf, provider, index);
          return CycleResult(|jobs|, authorizedCount, rejectedCount, pendingCount, contingencyCount, jobs), done;
        }
        CountMore(done.kinds, kind.value, AuthorizedKind);
        CountMore(done.kinds, kind.value, RejectedKind);
        CountMore(done.kinds, kind.value, PendingKind);
        CountMore(done.kinds, kind.value, ContingencyKind);
        jobs := jobs + [job.value];
        done := Progress(repository.db, done.kinds + [kind.value], done.jobs + [job.value], done.positions + [k]);
        match kind.value
        case AuthorizedKind => authorizedCount := authorizedCount + 1;
        case RejectedKind => rejectedCount := rejectedCount + 1;
        case PendingKind => pendingCount := pendingCount + 1;
        case ContingencyKind => contingencyCount := contingencyCount + 1;
      }
      assert provider[..limit] == provider;
      result := CycleResult(|jobs|, authorizedCount, rejectedCount, pendingCount, contingencyCount, jobs);
    }
  }

  lemma NothingRun(db: FiscalDb, asOf: Time, provider: seq<Response>)
    requires Aligned(db)
    ensures RunCycle(db, asOf, provider[..0]) == Progress(db, [], [], [])
    ensures forall kind :: CountKind([], kind) == 0
  {
  }

  lemma OneMoreRun(db: FiscalDb, asOf: Time, provider: seq<Response>, n: nat)
    requires Aligned(db) && HonestCycle(db, asOf, provider) && n < |provider|
    ensures var done := RunCycle(db, asOf, provider[..n]);
            var k := FirstReady(done.db.queue, asOf);
            if k == |done.db.queue| then RunCycle(db, asOf, provider[..n + 1]) == done
            else
              && HonestFor(done.db, k, asOf, |done.kinds|, provider[n])
              && var processed := ProcessRow(done.db, k, asOf, |done.kinds|, provider[n]);
                 RunCycle(db, asOf, provider[..n + 1]) ==
                 Progress(processed.db, done.kinds + [processed.kind], done.jobs + [processed.db.queue[k]], done.positions + [k])
  {
    hide ProcessRow, FirstReady, HonestFor, Ready;
    HonestPrefix(db, asOf, provider, n + 1);
    assert provider[..n + 1][..n] == provider[..n];
  }

  lemma {:induction false} HonestPrefix(db: FiscalDb, asOf: Time, provider: seq<Response>, n: nat)
    requires Aligned(db) && HonestCycle(db, asOf, provider) && n <= |provider|
    ensures HonestCycle(db, asOf, provider[..n])
    decreases |provider|
  {
    if n < |provider| {
      assert provider[..|provider| - 1][..n] == provider[..n];
      HonestPrefix(db, asOf, provider[..|provider| - 1], n);
    } else {
      assert provider[..n] == provider;
    }
  }
}

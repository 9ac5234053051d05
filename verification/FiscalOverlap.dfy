/** Why the safe runs of the fiscal workers are exactly the right ones: after any claim of a held row an
    authorization can be undone. */
module FiscalOverlap {
  import opened Wrappers
  import opened Rows
  import opened NsAccessKey
  import opened FiscalStore
  import opened FiscalWorkers
  import opened FiscalSafety

  // ---------- the hypothesis is exact ----------

  /** A claim makes its worker the holder of the first ready document, and leaves the other workers. */
  lemma ClaimHolds(s: State, act: Action)
    requires RowsOk(s.db) && act.Claim? && Enabled(s, act) && FirstReady(s.db.queue, act.asOf) < |s.db.documents|
    ensures var t := Step(s, act);
            && act.worker in t.workers && (forall v :: v in s.workers ==> v in t.workers && t.workers[v] == s.workers[v])
            && t.workers[act.worker].held == s.db.documents[FirstReady(s.db.queue, act.asOf)]
  {
    assert Aligned(s.db);
    hide ClaimRow, Ready, RowsOk, OnlyRow, StepKeepsFaith, LockedAt;
    ClaimLocks(s.db, FirstReady(s.db.queue, act.asOf), act.asOf, act.index);
  }

  /** A claim of a held row makes a second holder of the document. */
  lemma HeldClaimDoubles(s: State, act: Action) returns (v: WorkerId)
    requires SafeInv(s) && act.Claim? && Enabled(s, act) && !Safe(s, act)
    ensures var t := Step(s, act);
            && v in s.workers && v != act.worker && v in t.workers && act.worker in t.workers && t.workers[v] == s.workers[v]
            && t.workers[v].held.comandaId == t.workers[act.worker].held.comandaId
            && t.workers[v].held.comandaId == s.db.documents[FirstReady(s.db.queue, act.asOf)].comandaId
  {
    assert RowsOk(s.db);
    v :| v in s.workers && s.workers[v].held.comandaId == s.db.documents[FirstReady(s.db.queue, act.asOf)].comandaId;
    hide Step, LocksOk, Inv, RowsOk, Safe;
    ClaimHolds(s, act);
  }

  /** In a state with one holder a document, a claim keeps it so if and only if it is safe. */
  lemma ClaimKeepsIffSafe(s: State, act: Action)
    requires SafeInv(s) && act.Claim? && Enabled(s, act)
    ensures SafeInv(Step(s, act)) <==> Safe(s, act)
  {
    if Safe(s, act) {
      SafeStep(s, act);
    } else {
      var v := HeldClaimDoubles(s, act);
      hide Inv, Step, Safe, Locked;
    }
  }

  /** Whatever a holder is waiting for, the provider may answer it with an authorization or a rejection. */
  lemma BothAnswersHonest(h: Holder)
    requires KeyOk(h.held) && (h.phase.Querying? ==> h.held.status.Contingency? && HasKey(h.held))
    ensures Honest(h, AuthorizedAnswer("ns", KeyOf(h.held), h.asOf))
    ensures Honest(h, RejectedAnswer("539", "Duplicidade", false, None))
  {
    hide BuildNsAccessKey;
  }

  lemma PatchSets(d: Document, p: Patch)
    ensures PatchedDocument(d, p).status == p.status && PatchedDocument(d, p).comandaId == d.comandaId
  {
  }

  /** An answer writes its status to the holder's document and ends the claim. */
  lemma ReplySets(s: State, act: Action, k: nat)
    requires Inv(s) && act.Reply? && Enabled(s, act) && !act.answer.NotFound?
    requires k < |s.db.documents| && s.db.documents[k].comandaId == s.workers[act.worker].held.comandaId
    ensures var t, h := Step(s, act), s.workers[act.worker];
            && t.workers == s.workers - {act.worker} && |t.db.documents| == |s.db.documents|
            && t.db.documents[k].comandaId == s.db.documents[k].comandaId
            && t.db.documents[k].status == AnswerPatch(h.held, act.answer, act.printed, h.asOf).status
  {
    var f := HeldAt(s, act.worker);
    var h := s.workers[act.worker];
    assert Numbered(s.db.documents);
    hide PatchedDocument, PatchedRow, Inv, Honest, AnswerPatch, AnswerEvent, InsertEvent, Numbered;
    SamePlace(s.db.documents, f, k);
    PatchSets(s.db.documents[k], AnswerPatch(h.held, act.answer, act.printed, h.asOf));
  }

  lemma InvAligned(s: State)
    requires Inv(s)
    ensures Aligned(s.db)
  {
  }

  /** An honest authorization of document k followed by an honest rejection: both are accepted, and the
      authorized document becomes rejected. */
  predicate Undone(s: State, first: Action, second: Action, k: nat) {
    && first.Reply? && first.answer.AuthorizedAnswer? && second.Reply? && second.answer.RejectedAnswer?
    && Aligned(s.db) && Enabled(s, first)
    && var one := Step(s, first);
       && Aligned(one.db) && Enabled(one, second)
       && var two := Step(one, second);
          && k < |one.db.documents| == |two.db.documents|
          && one.db.documents[k].status.Authorized? && two.db.documents[k].status.Rejected?
          && one.db.documents[k].comandaId == two.db.documents[k].comandaId
  }

  /** In any state with two live holders of one document, an authorization of the one can be undone by
      a rejection of the other. */
  lemma TwoHoldersUndo(s: State, first: Action, second: Action, k: nat)
    requires Inv(s) && first.Reply? && second.Reply? && first.worker != second.worker
    requires Enabled(s, first) && first.answer.AuthorizedAnswer?
    requires Enabled(s, second) && second.answer.RejectedAnswer?
    requires k < |s.db.documents| && s.workers[first.worker].held.comandaId == s.db.documents[k].comandaId
    requires s.workers[second.worker].held.comandaId == s.db.documents[k].comandaId
    ensures Undone(s, first, second, k)
  {
    hide Step, Honest, Inv, Aligned;
    InvAligned(s);
    ReplySets(s, first, k);
    StepKeepsInv(s, first);
    var one := Step(s, first);
    InvAligned(one);
    assert one.workers[second.worker] == s.workers[second.worker];
    ReplySets(one, second, k);
  }

  /** After an unsafe claim, so in particular between its worker and an earlier holder. */
  lemma UnsafeClaimUndoes(s: State, act: Action) returns (first: Action, second: Action, k: nat)
    requires SafeInv(s) && act.Claim? && Enabled(s, act) && !Safe(s, act)
    ensures Undone(Step(s, act), first, second, k)
  {
    hide Step, Inv, LocksOk, Honest, Safe, KeyOk, Undone, FirstReady;
    var v := HeldClaimDoubles(s, act);
    InvAligned(s);
    StepKeepsInv(s, act);
    var t := Step(s, act);
    k := HeldAt(t, v);
    var j := HeldAt(t, act.worker);
    BothAnswersHonest(t.workers[v]);
    BothAnswersHonest(t.workers[act.worker]);
    first := Reply(v, AuthorizedAnswer("ns", KeyOf(t.workers[v].held), t.workers[v].asOf), false);
    second := Reply(act.worker, RejectedAnswer("539", "Duplicidade", false, None), false);
    TwoHoldersUndo(t, first, second, k);
  }

  lemma PrefixOfRun(trace: seq<State>, acts: seq<Action>, n: nat)
    requires IsRun(trace, acts) && n <= |acts|
    ensures IsRun(trace[..n + 1], acts[..n])
  {
    hide Steps;
  }

  lemma OneMoreStep(trace: seq<State>, acts: seq<Action>, act: Action)
    requires IsRun(trace, acts) && Aligned(trace[|acts|].db) && Enabled(trace[|acts|], act)
    ensures IsRun(trace + [Step(trace[|acts|], act)], acts + [act])
  {
    var longer, more := trace + [Step(trace[|acts|], act)], acts + [act];
    assert Steps(trace[|acts|], act, longer[|longer| - 1]);
    hide Steps;
    forall i | 0 <= i < |more| ensures Steps(longer[i], more[i], longer[i + 1]) {
      if i < |acts| {
        assert Steps(trace[i], acts[i], trace[i + 1]);
      }
    }
  }

  /** The first unsafe claim of a run. */
  lemma {:induction false} FirstUnsafe(trace: seq<State>, acts: seq<Action>) returns (n: nat)
    requires IsRun(trace, acts) && !SafeRun(trace, acts)
    ensures n < |acts| && SafeRun(trace[..n + 1], acts[..n]) && !Safe(trace[n], acts[n])
    decreases |acts|
  {
    var m :| 0 <= m < |acts| && !Safe(trace[m], acts[m]);
    PrefixOfRun(trace, acts, m);
    hide Safe, IsRun;
    if SafeRun(trace[..m + 1], acts[..m]) {
      n := m;
    } else {
      n := FirstUnsafe(trace[..m + 1], acts[..m]);
      assert trace[..m + 1][..n + 1] == trace[..n + 1] && acts[..m][..n] == acts[..n];
    }
  }

  lemma FirstUnsafeState(trace: seq<State>, acts: seq<Action>) returns (n: nat)
    requires IsRun(trace, acts) && !SafeRun(trace, acts)
    ensures n < |acts| == |trace| - 1 && SafeRun(trace[..n + 1], acts[..n]) && !Safe(trace[n], acts[n])
    ensures SafeInv(trace[n]) && acts[n].Claim? && Steps(trace[n], acts[n], trace[n + 1])
    ensures IsRun(trace[..n + 2], acts[..n + 1])
  {
    hide Step, Enabled, SafeInv, Aligned;
    n := FirstUnsafe(trace, acts);
    assert acts[n].Claim? && Steps(trace[n], acts[n], trace[n + 1]);
    hide Safe, SafeRun, Steps;
    PrefixOfRun(trace, acts, n + 1);
    OneHolder(trace[..n + 1], acts[..n], n);
  }

  lemma UndoneExtends(trace: seq<State>, acts: seq<Action>, first: Action, second: Action, k: nat)
      returns (longer: seq<State>)
    requires IsRun(trace, acts) && Undone(trace[|acts|], first, second, k)
    ensures IsRun(longer, acts + [first] + [second]) && longer[..|acts| + 1] == trace
    ensures var n := |acts|;
            && k < |longer[n + 1].db.documents| && longer[n + 1].db.documents[k].status.Authorized?
            && k < |longer[n + 2].db.documents| && longer[n + 2].db.documents[k].status.Rejected?
  {
    assert |trace| == |acts| + 1;
    hide Step, IsRun, Enabled, Aligned;
    OneMoreStep(trace, acts, first);
    var one := Step(trace[|acts|], first);
    OneMoreStep(trace + [one], acts + [first], second);
    longer := trace + [one] + [Step(one, second)];
  }

  /** The converse of the results on safe runs, for every run: one that is not safe has a continuation of
      its steps up to the first unsafe claim in which an authorized document becomes rejected. */
  lemma UnsafeRunUndoes(trace: seq<State>, acts: seq<Action>)
      returns (n: nat, longer: seq<State>, more: seq<Action>, k: nat)
    requires IsRun(trace, acts) && !SafeRun(trace, acts)
    ensures n < |acts| && SafeRun(trace[..n + 1], acts[..n]) && !Safe(trace[n], acts[n])
    ensures IsRun(longer, more) && |more| == n + 3
    ensures more[..n + 1] == acts[..n + 1] && longer[..n + 2] == trace[..n + 2]
    ensures k < |longer[n + 2].db.documents| && longer[n + 2].db.documents[k].status.Authorized?
    ensures k < |longer[n + 3].db.documents| && longer[n + 3].db.documents[k].status.Rejected?
  {
    n := FirstUnsafeState(trace, acts);
    hide Step, Enabled, SafeInv, Safe, SafeRun, IsRun, Undone, Aligned;
    var first, second, j := UnsafeClaimUndoes(trace[n], acts[n]);
    k := j;
    longer := UndoneExtends(trace[..n + 2], acts[..n + 1], first, second, k);
    more := acts[..n + 1] + [first] + [second];
  }

  // ---------- a witness ----------

  /** The document of the first checkout of emitter "7", and its queue row. */
  const FIRST: Document :=
    Document(1, "7", "caixa", CHECKOUT_SERIE, 1, Draft, None, None, Normal, false, None, None, None, None, None, None, None, None)
  const FIRST_ROW: QueueRow := QueueRow(1, Draft, None, Normal, false, None, None, None, None, None, None, None, None, None)

  lemma FirstCheckout(s: State)
    requires s == State(FiscalDb({"7"}, [], [], map[]), map[])
    ensures var next := Step(s, Checkout(1, "caixa", Some("7"), 0));
            next.db.emitters == {"7"} && next.db.documents == [FIRST] && next.db.queue == [FIRST_ROW] && next.workers == map[]
  {
  }

  /** A claim of the only document, which is being worked on or still a draft. */
  lemma ClaimsOnly(s: State, w: WorkerId, asOf: Time)
    requires |s.db.documents| == |s.db.queue| == 1 && s.db.documents[0].emitterId in s.db.emitters && w !in s.workers
    requires Ready(s.db.queue[0], asOf) && (s.db.documents[0].status.Draft? || s.db.documents[0].status.Signed?)
    requires s.db.queue[0].nextRetryAt.None? && s.db.documents[0].status == s.db.queue[0].status
    ensures var next := Step(s, Claim(w, asOf, 0));
            && |next.db.documents| == |next.db.queue| == 1 && next.db.emitters == s.db.emitters
            && next.workers == s.workers[w := Holder(s.db.documents[0], asOf + LEASE_MS, asOf, Issuing)]
            && next.db.documents[0].status.Signed? && SameIdentity(next.db.documents[0], s.db.documents[0])
            && next.db.queue[0].status.Signed? && next.db.queue[0].leaseExpiresAt == Some(asOf + LEASE_MS)
            && next.db.queue[0].nextRetryAt.None?
  {
    assert FirstReady(s.db.queue, asOf) == 0;
  }

  lemma RepliesTo(s: State, w: WorkerId, answer: Answer) returns (next: State)
    requires |s.db.documents| == |s.db.queue| == 1 && w in s.workers && Honest(s.workers[w], answer)
    requires s.workers[w].held.comandaId == s.db.documents[0].comandaId
    requires answer.AuthorizedAnswer? || answer.RejectedAnswer?
    ensures Steps(s, Reply(w, answer, false), next)
    ensures |next.db.documents| == |next.db.queue| == 1 && next.workers == s.workers - {w}
    ensures next.db.documents[0].comandaId == s.db.documents[0].comandaId
    ensures next.db.documents[0].status == if answer.AuthorizedAnswer? then Authorized else Rejected
  {
    hide Honest;
    assert FindDocument(s.db.documents, s.db.documents[0].comandaId) == 0;
    next := Step(s, Reply(w, answer, false));
  }

  lemma FirstIsReady(q: QueueRow, asOf: Time)
    requires (q.status.Draft? || q.status.Signed?) && q.nextRetryAt.None?
    requires q.leaseExpiresAt.None? || q.leaseExpiresAt.value <= asOf
    ensures Ready(q, asOf)
  {
  }

  const EMPTY: State := State(FiscalDb({}, [], [], map[]), map[])
  const ISSUED: Answer := AuthorizedAnswer("ns", KeyOf(FIRST), 5)
  const REFUSED: Answer := RejectedAnswer("539", "Duplicidade", false, None)

  /** A checkout and two claims of its document, 30 seconds apart. */
  lemma ClaimedTwice() returns (s1: State, s2: State, s3: State, s4: State)
    ensures Steps(EMPTY, Configure("7"), s1) && Steps(s1, Checkout(1, "caixa", Some("7"), 0), s2)
    ensures Steps(s2, Claim(1, 0, 0), s3) && Steps(s3, Claim(2, LEASE_MS, 0), s4)
    ensures !Safe(s3, Claim(2, LEASE_MS, 0))
    ensures |s4.db.documents| == |s4.db.queue| == 1 && s4.db.documents[0].comandaId == 1
    ensures 1 in s4.workers && s4.workers[1] == Holder(FIRST, LEASE_MS, 0, Issuing)
    ensures 2 in s4.workers && s4.workers[2].phase.Issuing? && s4.workers[2].held.comandaId == 1
  {
    s1 := State(FiscalDb({"7"}, [], [], map[]), map[]);
    assert EMPTY.db.emitters + {"7"} == {"7"};
    assert s1 == Step(EMPTY, Configure("7"));
    FirstCheckout(s1);
    hide Step, Ready;
    s2 := Step(s1, Checkout(1, "caixa", Some("7"), 0));
    FirstIsReady(s2.db.queue[0], 0);
    ClaimsOnly(s2, 1, 0);
    s3 := Step(s2, Claim(1, 0, 0));
    FirstIsReady(s3.db.queue[0], LEASE_MS);
    ClaimsOnly(s3, 2, LEASE_MS);
    s4 := Step(s3, Claim(2, LEASE_MS, 0));
  }

  lemma HonestAnswers(h: Holder)
    requires h.phase.Issuing?
    ensures Honest(h, REFUSED) && Honest(Holder(FIRST, LEASE_MS, 0, Issuing), ISSUED)
  {
    hide BuildNsAccessKey;
  }

  lemma SevenStates(s1: State, s2: State, s3: State, s4: State, s5: State, s6: State)
    requires Steps(EMPTY, Configure("7"), s1) && Steps(s1, Checkout(1, "caixa", Some("7"), 0), s2)
    requires Steps(s2, Claim(1, 0, 0), s3) && Steps(s3, Claim(2, LEASE_MS, 0), s4)
    requires Steps(s4, Reply(1, ISSUED, false), s5) && Steps(s5, Reply(2, REFUSED, false), s6)
    ensures IsRun([EMPTY, s1, s2, s3, s4, s5, s6],
                  [Configure("7"), Checkout(1, "caixa", Some("7"), 0), Claim(1, 0, 0), Claim(2, LEASE_MS, 0),
                   Reply(1, ISSUED, false), Reply(2, REFUSED, false)])
  {
    hide Steps, BuildNsAccessKey, KeyOf;
  }

  /** Two overlapping ticks: the second claims at the very moment the first one's lease runs out, while
      the provider has not answered. The authorized document ends up rejected. */
  lemma OverlapUndoesAuthorization() returns (trace: seq<State>, acts: seq<Action>)
    ensures IsRun(trace, acts) && |trace| == 7
    ensures !Safe(trace[3], acts[3])
    ensures |trace[5].db.documents| == 1 && trace[5].db.documents[0].status.Authorized?
    ensures |trace[6].db.documents| == 1 && trace[6].db.documents[0].status.Rejected?
  {
    hide BuildNsAccessKey, KeyOf, Step, Honest, Safe, Steps, Enabled;
    var s1, s2, s3, s4 := ClaimedTwice();
    HonestAnswers(s4.workers[2]);
    var s5 := RepliesTo(s4, 1, ISSUED);
    var s6 := RepliesTo(s5, 2, REFUSED);
    SevenStates(s1, s2, s3, s4, s5, s6);
    hide *;
    acts := [Configure("7"), Checkout(1, "caixa", Some("7"), 0), Claim(1, 0, 0), Claim(2, LEASE_MS, 0),
             Reply(1, ISSUED, false), Reply(2, REFUSED, false)];
    trace := [EMPTY, s1, s2, s3, s4, s5, s6];
  }
}

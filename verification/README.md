# Rayzen point of sale: a verified model

This project models the main process of the Rayzen point of sale and proves what its parts keep over whole runs.
The comanda, cash and print tables stand behind one connection with its savepoints, the fiscal tables in a class of
their own; time is an integer, a generated id is a natural number that was not used before, and each service call is
one step. Pure code is modelled by functions; code that changes
state is modelled by classes and loops proved against those functions, and the properties are lemmas about them.

| files | what they model |
|---|---|
| `Transactions` | `executeTransaction`: BEGIN, SAVEPOINT, RELEASE and ROLLBACK TO driven by a depth counter |
| `Comanda`, `ComandaRuns`, `ComandaEffects` | the comanda aggregate, all its runs, and what each transition accepts and changes |
| `Cash`, `CashRuns`, `CashEffects`, `CashClosing`, `CashTyping` | the cash session aggregate, all its runs, what each operation accepts and changes, and the closing form that prefills, reads and reads back amounts |
| `Tables`, `ComandaRepository`, `CashSessionRepository` | the tables behind both aggregates, written by upserts and read back ordered (modules `ComandaStore` and `CashStore`) |
| `PdvDatabase`, `Repositories` | the tables on one connection, the transactions of saves and calls statement by statement, and the repositories that read and run them |
| `PrintSpool`, `PrintRuns`, `PrintEffects`, `PrintService` | the print queue, all its runs, how jobs end, its repository and its worker cycle |
| `PdvBooks`, `PdvRuns`, `PdvLedger`, `PdvTickets`, `PdvSafety`, `PdvOrders`, `PdvFlow`, `PdvTransactions`, `PdvService` | the service calls over all comandas, sessions and jobs together |
| `NsAccessKey`, `FiscalStore`, `FiscalWorkers`, `FiscalSafety`, `FiscalOverlap`, `FiscalAnswers`, `FiscalService` | NFC-e numbering and keys, the fiscal tables, the interleaved workers and one worker cycle |
| `PedidoList` | the keyed, in-place reconciliation of the order list |
| `Wrappers`, `Rows`, `Text`, `Decimal` | optional values, sums and ORDER BY, trimming, numerals |

The main results:

- **Atomicity.** Any tree of nested transactions, statements, reads, throws and catches ends in the state of the plain
  meaning in which a throwing transaction contributes nothing; a crash sees only the database before or after the
  outermost transaction. So each service call, run as its transaction around the nested saves, has its whole effect or
  none, whichever of its statements, RELEASEs or its COMMIT fails.
- **Money.** After every run of service calls, refused and rolled-back ones included, the payments of each comanda are,
  method by method and amount by amount, the receipts sourced from it over all drawers; so what all drawers should
  hold is opening funds, plus comanda payments, standalone receipts and supplies, less withdrawals.
  Method by method that total is exactly what the calls taken so far put in, in funds, receipts, supplies and payments,
  less the withdrawals they took out.
- **Tickets.** After every such run each sent item stands on exactly one production ticket, once, under its comanda,
  batch and setor, and an item never sent stands on none. What was ordered stays on the comanda as it was ordered, and
  a send prints it so: the label, quantity and note ordered, for the setor ordered, on that setor's printer.
- **Storage.** The comanda and cash tables refine maps from id to aggregate, although a reload reorders rows.
- **Bills and drawers.** A pre-conta stays the bill of the current items until it is reopened; a settled comanda
  balances; no drawer is ever expected to hold a negative amount; a closure stays equal to the recomputed totals.
- **Closing.** Accepting the prefilled closing form closes any reachable session without divergence, and a typed amount
  counts as the number typed, rounded half up to whole cents.
- **Print queue.** Leases, retries, keys and second copies stay consistent over every run; without manual requeueing a
  job settles within three recorded attempts.
- **Fiscal workers.** In every interleaving, document and queue rows stay mirrored, the event trail carries every status,
  and numbering has no gap. In runs in which no claim takes a row a live worker holds, a document has one holder, is
  authorized at most once and never called for again, and a contingency's mode, dhCont, xJust and key are frozen; so it
  is in particular while claims come before the live leases end. The hypothesis is exact: a claim keeps one holder a
  document if and only if its row is not held, and every run with another claim has a continuation in which an
  authorized document becomes rejected.
- **Answers.** An iteration stores the deciding answer's own reference, key, times, code and message, and the row is tried
  again exactly from the answer's retry time on, or never.
- **Access keys.** Below 10^9 documents an emitter's keys differ; beyond, two keys are equal exactly when numbers and
  digits are shifted against each other.
- **Order list.** Reconciliation reuses the element of every surviving item, puts the elements in item order and leaves
  old text nodes behind them. Whatever was shown before, the list is then what a full rendering would show, if and only
  if no label, note or setor holds the render key's delimiter.

Some behaviour the model takes from the code although names or comments suggest more: the movement of a checkout is the
gross amount, not net of change; a closure asks for a reason only when the divergences do not cancel out; a second
copy's sequence stands beside the ticket header; the emission digit of a contingency key is the one of a normal key;
and pending comandas are counted only when a closure starts.

## Model

| member | source | states |
|---|---|---|
| Transactions.Connection.ExecuteTransaction | packages/db/src/transaction.ts:5-41 | at any depth: all of the callback or none of it, also when COMMIT or RELEASE is refused; the caller's depth and savepoints as they were, nothing durable inside an outer transaction, and only the two end states visible to a crash |
| Transactions.Connection.Run | packages/db/src/transaction.ts:5-41 | any nesting of statements, loops of statements, reads, throws, catches and transactions ends in its plain meaning |
| Transactions.AllOrNothing | packages/db/src/transaction.ts:17-33 | whichever statement or closing command of a transaction fails, at whatever depth, it throws and contributes nothing; otherwise it contributes all of its callback |
| Transactions.Connection.Statements | packages/db/src/repositories/comandas.ts:232-243 | the loop over a list of statements leaves the database they come to, and nothing durable inside a transaction |
| Transactions.Connection.Begin | packages/db/src/transaction.ts:6-15 | BEGIN or SAVEPOINT is accepted and remembers the current database under a name of its depth |
| Transactions.Connection.FinishOuter | packages/db/src/transaction.ts:17-40 | at depth 1: an accepted COMMIT keeps the current database, a throw or a refused COMMIT restores the durable one and throws, and the counter is removed |
| Transactions.Connection.FinishInner | packages/db/src/transaction.ts:17-40 | RELEASE and ROLLBACK TO find this call's own savepoint and leave the outer ones alone; a refused RELEASE rolls back to it and throws |
| Transactions.Connection.StackNamesDistinct | packages/db/src/transaction.ts:6-15 | the savepoint names on the stack are pairwise distinct |
| Transactions.SavepointNamesDistinct | packages/db/src/transaction.ts:7 | equal savepoint names mean equal depths |
| ComandaRuns.ReachableComanda | apps/pdv/src/domain/comanda/aggregate.ts:66-478 | every run of transitions and reloads keeps distinct rows, batches and items in agreement, versions 1..n, the current bill while frozen, and payments exactly when settled |
| ComandaRuns.StepKeepsInv | apps/pdv/src/domain/comanda/aggregate.ts:66-478 | one transition or reload keeps it |
| ComandaRuns.OpenedComandaInv | apps/pdv/src/domain/comanda/aggregate.ts:24-64 | an opened comanda has it |
| ComandaRuns.BatchesDisjoint | apps/pdv/src/domain/comanda/aggregate.ts:203-236 | no item is listed by two batches |
| ComandaRuns.SettledBill | apps/pdv/src/domain/comanda/aggregate.ts:256-529 | versions are 1..n; in payment or settled, the last pre-conta has exactly the active items' lines and their subtotal; payments exist exactly when ENCERRADA, and then paid = subtotal + change, nothing is due and the cash tendered covers the change |
| ComandaRuns.FrozenBill | apps/pdv/src/domain/comanda/aggregate.ts:256-435 | until a reopening or a cancellation no run changes the pre-contas, items, subtotal or, once settled, the payments |
| ComandaRuns.CheckoutAccepted | apps/pdv/src/domain/comanda/aggregate.ts:334-402 | what an accepted checkout records and that it covers the bill with controlled change |
| ComandaRuns.LinesTotal | apps/pdv/src/domain/comanda/aggregate.ts:500-529 | a pre-conta's total is the subtotal of the active items |
| ComandaRuns.SentItemListed | apps/pdv/src/domain/comanda/aggregate.ts:203-236 | after a send, an item with a batch is listed by that batch |
| ComandaRuns.ListedItemSent | apps/pdv/src/domain/comanda/aggregate.ts:203-236 | after a send, a listed id belongs to an item carrying that batch |
| ComandaRuns.ReloadKeepsRowsOf | packages/db/src/repositories/comandas.ts:106-170 | a reload gives back the same items and payments, and the pre-contas in order |
| ComandaRuns.ReorderKeepsInv | packages/db/src/repositories/comandas.ts:106-170 | reordering items and payments keeps the invariant and every total |
| ComandaEffects.LineTotalRounds | apps/pdv/src/domain/comanda/aggregate.ts:480-498 | a line's total is quantity times price rounded to a whole cent, halves up |
| ComandaEffects.WholeLineTotal | apps/pdv/src/domain/comanda/aggregate.ts:480-498 | a whole quantity multiplies exactly |
| ComandaEffects.WholeBill | apps/pdv/src/domain/comanda/aggregate.ts:500-529 | with whole quantities the bill of a frozen comanda is the sum of quantity times price over the items not cancelled |
| ComandaEffects.FrozenLines | apps/pdv/src/domain/comanda/aggregate.ts:500-529 | a frozen comanda's last pre-conta has a line for every item not cancelled, with that item's data and rounded total, and no other line |
| ComandaEffects.OpenEffect | apps/pdv/src/domain/comanda/aggregate.ts:24-64 | a comanda opens exactly with a visible numero, under the trimmed data given, with nothing on it |
| ComandaEffects.AddEffect | apps/pdv/src/domain/comanda/aggregate.ts:66-129 | exactly when an order is taken; it appends the item ordered, leaves the earlier ones alone, and raises the subtotal by the rounded product of the given quantity and price |
| ComandaEffects.CancelItemEffect | apps/pdv/src/domain/comanda/aggregate.ts:131-181 | exactly when an item is cancelled; it keeps what was ordered, nothing else changes, and the subtotal falls by its line |
| ComandaEffects.SendEffect | apps/pdv/src/domain/comanda/aggregate.ts:183-254 | exactly when a send is accepted; every pending item gets the batch and the time, nothing else changes |
| ComandaEffects.BillEffect | apps/pdv/src/domain/comanda/aggregate.ts:256-300 | exactly when a pre-conta is made, and that its total is the subtotal |
| ComandaEffects.CheckoutExact | apps/pdv/src/domain/comanda/aggregate.ts:334-402 | a checkout is accepted if and only if the comanda is in payment with something to pay, the payments are given and positive, cover the bill, and the cash covers the change; they are recorded as given |
| ComandaEffects.CancelEffect | apps/pdv/src/domain/comanda/aggregate.ts:437-478 | a reachable comanda is cancelled exactly with a visible reason while nothing is paid and it is not cancelled yet |
| Text.TrimIsMiddle | apps/pdv/src/domain/comanda/aggregate.ts:560-574 | trimming takes white space off both ends, and all of it |
| Text.NormalizedText | apps/pdv/src/domain/comanda/aggregate.ts:567-574 | an optional text is absent exactly when nothing of it is visible, else trimmed |
| Cash.CalculateCashSessionTotals | apps/pdv/src/domain/cash/aggregate.ts:289-342 | the two passes over Maps give opening fund plus signed movements, and the stored counts, for every method |
| Cash.SumMovements | apps/pdv/src/domain/cash/aggregate.ts:290-311 | the first pass holds, for every method, its share of the opening fund plus its signed movements |
| Cash.ReadClosureCounts | apps/pdv/src/domain/cash/aggregate.ts:312-320 | the second pass holds the last stored count of every method, or zero |
| Cash.BuildCountSummary | apps/pdv/src/domain/cash/aggregate.ts:404-429 | a negative count is refused; otherwise each method's last count stands against its expected amount |
| CashRuns.ReachableSession | apps/pdv/src/domain/cash/aggregate.ts:64-287 | every run keeps distinct positive movements, non-negative expected amounts and a closure equal to the totals |
| CashRuns.MoveKeepsInv | apps/pdv/src/domain/cash/aggregate.ts:64-191 | no receipt, supply or withdrawal makes an expected amount negative |
| CashRuns.CloseKeepsInv | apps/pdv/src/domain/cash/aggregate.ts:227-287 | a closure's counts and totals are those recomputed from the closed session |
| CashRuns.CountsReadBack | apps/pdv/src/domain/cash/aggregate.ts:312-320 | counts stored in a closure read back as the counts given |
| CashRuns.ClosedForever | apps/pdv/src/domain/cash/aggregate.ts:227-342 | once FECHADO no run changes the closure or the totals |
| CashRuns.ReorderKeepsTotals | packages/db/src/repositories/cash-sessions.ts:87-110 | totals do not depend on the order of the movements |
| CashRuns.ReloadKeepsMovements | packages/db/src/repositories/cash-sessions.ts:58-116 | a reload keeps the movements, the totals and the invariant |
| CashRuns.OpenedSessionInv | apps/pdv/src/domain/cash/aggregate.ts:27-62 | an opened session has the invariant |
| CashEffects.OpenEffect | apps/pdv/src/domain/cash/aggregate.ts:27-62 | a session opens exactly with a terminal and a fund of zero or more, which is all it is expected to hold |
| CashEffects.MoveEffect | apps/pdv/src/domain/cash/aggregate.ts:64-191 | exactly when a receipt, a supply or a withdrawal is taken; it is recorded as given, and each method's expected amount rises by a receipt of its own, by a supply in cash, and falls by a withdrawal in cash |
| CashEffects.CloseEffect | apps/pdv/src/domain/cash/aggregate.ts:227-287 | exactly when a closure is accepted, and that it records every method's last count against its expected amount |
| CashClosing.ParseFormat | apps/pdv/src/application/shell-controller.ts:1635-1648 | a printed amount reads back as itself, for every integer of cents |
| CashClosing.NormalizedAmount | apps/pdv/src/application/shell-controller.ts:1635-1648 | what the parser sees of a printed amount: sign, whole part, point, two digits |
| CashClosing.DraftsReadBack | apps/pdv/src/application/shell-controller.ts:1087-1104 | each prefilled draft is read back as the expected amount of its method |
| CashClosing.PrefilledClosure | apps/pdv/src/application/shell-controller.ts:1057-1105 | accepting the prefilled drafts closes any reachable session with zero divergence in every method and no justification |
| CashClosing.ShellController.StartCashClosureFlow | apps/pdv/src/application/shell-controller.ts:1057-1077 | once the closure has started the drafts are the expected amounts of its totals |
| CashClosing.ShellController.CloseCashSessionFromDraft | apps/pdv/src/application/shell-controller.ts:1087-1105 | the closure counts, for every method, what its draft reads as; it is accepted exactly when the session is closing, no draft reads as negative, and the divergences cancel out or a reason is given; prefilled drafts always close without divergence |
| CashClosing.CountsAsDrafted | apps/pdv/src/application/shell-controller.ts:1087-1105 | each line of the closure has its method's expected amount, the amount its draft reads as, and their difference |
| CashTyping.TypedWhole | apps/pdv/src/application/shell-controller.ts:1635-1644 | typed digits count as that many reais |
| CashTyping.TypedFraction | apps/pdv/src/application/shell-controller.ts:1635-1644 | digits, a comma and digits count as that decimal number of reais, rounded half up to whole cents |
| CashTyping.RoundedOnce | apps/pdv/src/application/shell-controller.ts:1635-1644 | the number decides the rounded cents |
| CashTyping.TypedNegative | apps/pdv/src/application/shell-controller.ts:1635-1644 | a minus sign in front of an amount with at most two places negates it |
| CashTyping.TypedPositive | apps/pdv/src/application/shell-controller.ts:1635-1644 | a plus sign in front of an amount changes nothing |
| CashTyping.TypedExponent | apps/pdv/src/application/shell-controller.ts:1635-1644 | an exponent is read as a power of ten |
| CashTyping.DotsChangeNothing | apps/pdv/src/application/shell-controller.ts:1635-1644 | a dot anywhere changes nothing |
| CashTyping.TypedNothing | apps/pdv/src/application/shell-controller.ts:1635-1644 | text without a leading number counts as zero |
| Tables.SaveList | packages/db/src/repositories/comandas.ts:228-256 | upserting an owner's whole list replaces its rows and nobody else's |
| Tables.UpsertAllRows | packages/db/src/repositories/comandas.ts:327-440 | after the upserts the given rows are there with their owner and all other rows are as they were |
| Tables.SelectsOwnRows | packages/db/src/repositories/comandas.ts:106-164 | a SELECT by owner gives exactly the owner's rows |
| Rows.SelectOrdered | packages/db/src/repositories/comandas.ts:106-164 | a SELECT with its ORDER BY, row by row |
| Rows.OrderBySorted | packages/db/src/repositories/comandas.ts:106-164 | the rows come sorted by time, then id |
| ComandaStore.FindsTheSaved | packages/db/src/repositories/comandas.ts:79-170 | a reload is the last saved aggregate up to the order of items and payments, with its pre-contas in order; the amount columns are the totals recomputed from it |
| ComandaStore.SaveRefines | packages/db/src/repositories/comandas.ts:228-256 | a save is a map update: other comandas are untouched |
| ComandaStore.AnySavesRefine | packages/db/src/repositories/comandas.ts:228-256 | after any sequence of saves each reload gives the last one under its id |
| Repositories.ComandaRepository.SaveAggregate | packages/db/src/repositories/comandas.ts:228-440 | one transaction of one upsert for the comanda and each of its rows: the stored map gains exactly that aggregate, or, when a step fails, the database is as it was |
| Repositories.ComandaRepository.FindById | packages/db/src/repositories/comandas.ts:79-170 | reads back the last saved aggregate, reordered, or nothing |
| Repositories.ComandaRepository.HasActiveNumero | packages/db/src/repositories/comandas.ts:201-214 | whether an active comanda has the numero |
| Repositories.ComandaRepository.CountByStatus | packages/db/src/repositories/comandas.ts:216-226 | how many stored comandas have the status |
| CashStore.FindsTheSaved | packages/db/src/repositories/cash-sessions.ts:58-116 | a reload is the last saved session up to the order of its movements |
| CashStore.SaveRefines | packages/db/src/repositories/cash-sessions.ts:147-167 | a save is a map update |
| Repositories.CashSessionRepository.SaveAggregate | packages/db/src/repositories/cash-sessions.ts:147-342 | one transaction of one upsert for the session and each movement: the stored map gains exactly that session, or, when a step fails, the database is as it was |
| Repositories.CashSessionRepository.FindById | packages/db/src/repositories/cash-sessions.ts:58-116 | reads back the last saved session, reordered, or nothing |
| Repositories.CashSessionRepository.FindActiveId | packages/db/src/repositories/cash-sessions.ts:118-131 | finds the newest session of the terminal that is not FECHADO, exactly when there is one |
| Repositories.Execute | packages/db/src/client.ts:74-82 | a transaction throws exactly when one of its steps fails and then leaves the database as it was; a crash sees the database before or after it |
| PdvDatabase.ComandaSaved | packages/db/src/repositories/comandas.ts:228-440 | the statements of a comanda's save are the update of its four tables |
| PdvDatabase.SessionSaved | packages/db/src/repositories/cash-sessions.ts:147-342 | the statements of a session's save are the update of its two tables |
| PdvDatabase.SavedAndEnqueued | electron/src/main/pdv/service.ts:171-196 | the send's transaction is the comanda's nested save and one job a ticket |
| PdvDatabase.BothSaved | electron/src/main/pdv/service.ts:265-268 | the payment's transaction is the nested saves of the comanda and the session |
| PrintSpool.GroupItemsBySetor | electron/src/main/printing/service.ts:469-479 | the Map filled item by item: one group a setor in order of appearance, items in request order |
| PrintRuns.ReachableSpool | packages/db/src/repositories/print-spool.ts:57-341 | every run keeps keys and ids distinct, PRINTING iff leased, WAITING_PRINTER with one or two attempts and a retry time, DONE printed without error |
| PrintRuns.StepKeepsInv | electron/src/main/printing/service.ts:128-418 | enqueueing, claiming, every outcome, a crash, a requeue and a reprint keep it |
| PrintRuns.UnsettledIsClaimable | packages/db/src/repositories/print-spool.ts:251-284 | a job is claimable exactly from a computable time on unless it is DONE or NEEDS_ATTENTION |
| PrintRuns.CopiesNumbered | packages/db/src/repositories/print-spool.ts:129-164 | the copies of a job are numbered exactly 1..secondCopyCount and the next number is free |
| PrintRuns.RepeatedRequestCreatesNothing | electron/src/main/printing/service.ts:128-183 | repeating a request creates nothing and reuses every job |
| PrintRuns.RecordedAttempt | electron/src/main/printing/service.ts:270-418 | a recorded attempt counts one and leaves the job unclaimable at that time; the third settles it |
| PrintRuns.SettlesWithinThreeAttempts | electron/src/main/printing/service.ts:364-418 | without manual requeueing no job has more than three attempts and the third settles it, whatever else happens |
| PrintEffects.OutcomeDecides | electron/src/main/printing/service.ts:270-418 | DONE exactly with a route and a printed answer, WAITING_PRINTER exactly for a retryable failure with a route before the third attempt, else NEEDS_ATTENTION with the failure's own code; the ticket never changes |
| PrintEffects.RetriedLater | electron/src/main/printing/service.ts:364-418 | a waiting job is ready exactly from one minute an attempt later on, any other ended job never |
| PrintEffects.TicketContents | electron/src/main/printing/service.ts:486-510 | a production job has its request's header, its group's lines and its setor's printer, and is ready |
| PrintEffects.ReprintEffect | packages/db/src/repositories/print-spool.ts:129-164 | a reprint appends a copy with the original's lines, header, setor and printer, and changes only the original's counter |
| PrintService.PrintSpoolRepository.EnqueueJob | packages/db/src/repositories/print-spool.ts:57-127 | a job whose key is there is not inserted; the record returned has the key |
| PrintService.PrintSpoolRepository.CreateSecondCopyJob | packages/db/src/repositories/print-spool.ts:129-164 | the copy is always new, takes the next number and stands last; a missing original changes nothing |
| PrintService.PrintSpoolRepository.ClaimNextReady | packages/db/src/repositories/print-spool.ts:251-306 | the first ready job in creation order is leased, or nothing changes |
| PrintService.PrintSpoolRepository.RegisterAttempt | packages/db/src/repositories/print-spool.ts:308-341 | exactly the working columns of one job are written |
| PrintService.PrintSpoolService.EnqueueProductionTickets | electron/src/main/printing/service.ts:128-183 | one job a group; the reused jobs are those stored under the groups' keys before, in group order, and created and reused jobs together are the groups |
| PrintService.PrintSpoolService.ReprocessJob | electron/src/main/printing/service.ts:212-239 | any existing job goes back to the queue with its print time kept, and that record is the answer |
| PrintService.PrintSpoolService.HandleFailure | electron/src/main/printing/service.ts:364-418 | a retryable failure waits while attempts remain, any other needs attention |
| PrintService.PrintSpoolService.ProcessClaimed | electron/src/main/printing/service.ts:270-362 | a claimed job ends printed, waiting or in need of attention as its route and the driver say |
| PrintService.PrintSpoolService.ProcessNext | electron/src/main/printing/service.ts:247-259 | one iteration claims and processes the first ready job, or finds none |
| PrintService.PrintSpoolService.ProcessPendingJobs | electron/src/main/printing/service.ts:241-268 | the loop and its summary |
| PrintService.CycleProperties | electron/src/main/printing/service.ts:241-268 | a cycle handles each job at most once and in creation order, touches nothing else, and stops early only when nothing is ready |
| PrintService.CycleCounts | electron/src/main/printing/service.ts:261-267 | processedCount = done + waiting + needsAttention |
| PrintService.CycleKeepsInv | electron/src/main/printing/service.ts:241-268 | a cycle keeps the spool's invariant |
| PdvSafety.ReachableBooks | electron/src/main/pdv/service.ts:102-413 | every run of service calls keeps the invariants of all aggregates, row ids apart, and the three cross-aggregate invariants below |
| PdvSafety.StepKeepsInv | electron/src/main/pdv/service.ts:102-413 | every call keeps them, whether accepted, refused or rolled back |
| PdvSafety.PaymentsAreReceipts | electron/src/main/pdv/service.ts:238-269 | amount by amount and method by method, a comanda's payments are the receipts sourced from it across all sessions |
| PdvSafety.MoneyConserved | electron/src/main/pdv/service.ts:238-385 | what all drawers should hold by a method is opening funds, comanda payments, standalone receipts and supplies, less withdrawals |
| PdvSafety.SentItemOnOneTicket | electron/src/main/pdv/service.ts:162-199 | a sent item is printed by exactly one job, once, whose key names its comanda, batch and setor; an unsent one by none |
| PdvSafety.OneAtATime | electron/src/main/pdv/service.ts:102-326 | a terminal has at most one session that is not FECHADO, a numero at most one active comanda |
| PdvOrders.OpenExact | electron/src/main/pdv/service.ts:102-127 | a comanda is opened if and only if its number is visible and every comanda under it settled or cancelled; it is stored open and empty under the data given |
| PdvOrders.OrderTaken | electron/src/main/pdv/service.ts:129-147 | on an open comanda a complete order is taken and pending |
| PdvOrders.OrderedForever | electron/src/main/pdv/service.ts:102-413 | in every later state of every run the comanda has the item as it was ordered |
| PdvOrders.OrderOnOneTicket | electron/src/main/pdv/service.ts:129-199 | an order taken in a run is, in every later state, on exactly one production ticket for the setor, label, quantity and note ordered, once it has a batch, and on none before |
| PdvOrders.OrderThenSend | electron/src/main/pdv/service.ts:129-199 | an order followed by a send: the send is accepted, and exactly one job prints the order as ordered, under the comanda's number and table, on the setor's printer |
| PdvFlow.OpenCashExact | electron/src/main/pdv/service.ts:321-340 | a drawer is opened if and only if its terminal has none and the fund is not negative; it is expected to hold exactly that fund |
| PdvFlow.PaymentExact | electron/src/main/pdv/service.ts:238-269 | a payment is taken if and only if the comanda is in payment, the terminal's session open, and the amount the bill or, in cash, at least the bill |
| PdvFlow.PaymentRecorded | electron/src/main/pdv/service.ts:238-269 | a taken payment settles the comanda with the one payment given and puts its receipt into the drawer, from that comanda and under its number |
| PdvFlow.MoveRecorded | electron/src/main/pdv/service.ts:342-413 | a taken receipt, supply or withdrawal stands last in the drawer's movements, recorded as given |
| PdvFlow.StepFlows | electron/src/main/pdv/service.ts:238-413 | a call changes what the drawers should hold by what it is meant to add or take, or not at all when its transaction fails |
| PdvFlow.DrawersFollowCalls | electron/src/main/pdv/service.ts:238-413 | after every run the drawers' expected total by a method is what the calls taken put in, less what they took out |
| PdvSafety.SendKeeps | electron/src/main/pdv/service.ts:162-199 | storing a sent comanda and enqueueing its tickets keeps everything, and the tables accept the save |
| PdvSafety.PaymentKeeps | electron/src/main/pdv/service.ts:238-269 | storing a paid comanda and its receipt keeps everything, and the tables accept both saves |
| PdvSafety.ChangeKeeps | electron/src/main/pdv/service.ts:129-236 | adding, cancelling, billing, requesting and reopening keep everything, and the tables accept the save |
| PdvSafety.MoveKeeps | electron/src/main/pdv/service.ts:342-413 | receipts, supplies, withdrawals and closures keep everything, and the tables accept the save |
| PdvRuns.ChangedGrows | apps/pdv/src/domain/comanda/aggregate.ts:66-435 | a reloaded and changed comanda keeps every row it had, with its id, creation time and ticket data |
| PdvRuns.SaveAccepted | packages/db/src/repositories/comandas.ts:228-256 | such a comanda may be saved: its rows cover the stored ones and share no id with another comanda |
| PdvRuns.SessionSaveAccepted | packages/db/src/repositories/cash-sessions.ts:147-167 | so may a changed session |
| PdvLedger.PaymentMade | electron/src/main/pdv/service.ts:238-269 | a confirmed payment keeps both balances |
| PdvLedger.CashConserved | apps/pdv/src/domain/cash/aggregate.ts:289-342 | the split of all drawers' expected amounts by kind of movement |
| PdvTickets.OnExactlyOneTicket | electron/src/main/printing/service.ts:128-183 | which job prints an item, and that no other does |
| PdvTickets.SendKeepsTickets | electron/src/main/pdv/service.ts:172-196 | a send puts each newly sent item on the ticket of its setor and leaves older tickets alone |
| PdvTickets.TicketsMatchBatch | electron/src/main/pdv/service.ts:175-183 | the items on a send's tickets are exactly those its batch lists, and the ticket setores are the batch's, in order |
| PdvTickets.AllEnqueued | electron/src/main/printing/service.ts:132-170 | for a batch the spool has not seen, every group gets its own job |
| PdvTransactions.RunIsStep | electron/src/main/pdv/service.ts:102-413 | running a call's transaction with a failure at any of its statements and closing commands, or at none, leaves the tables of the call's step: its whole effect, or the old tables when something failed |
| PdvService.PdvRoundtripService.OpenComanda | electron/src/main/pdv/service.ts:102-127 | the books take exactly the call's step, undone when a step of the save fails; nothing is opened while the numero has an active comanda, and a refusal carries the aggregate's error |
| PdvService.PdvRoundtripService.ChangeComanda | electron/src/main/pdv/service.ts:129-236 | load, change, save: the books take exactly the call's step, undone when a step of the save fails; the answer is the changed comanda or the first error, and an addition's answer ends with the item ordered |
| PdvService.PdvRoundtripService.SendComandaToProduction | electron/src/main/pdv/service.ts:162-199 | run as its transaction, the call stores comanda and jobs, or, exactly when one of its statements, its RELEASE or its COMMIT fails, neither; a crash sees the books before or after; the answer says which |
| PdvService.PdvRoundtripService.ConfirmComandaPayment | electron/src/main/pdv/service.ts:238-269 | run as its transaction, the call stores comanda and drawer, or, exactly when one of its statements, a RELEASE or its COMMIT fails, neither; the answer is the settled comanda, exactly when the payment is taken, or the first of: no comanda, no open drawer, checkout refused, receipt refused, transaction failed |
| PdvService.PdvRoundtripService.OpenCashSession | electron/src/main/pdv/service.ts:321-340 | the books take exactly the call's step, undone when a step of the save fails; nothing is opened while the terminal has an active session |
| PdvService.PdvRoundtripService.MoveCash | electron/src/main/pdv/service.ts:342-413 | the books take exactly the call's step on the terminal's active session, undone when a step of the save fails; a receipt, supply or withdrawal is answered exactly when it is taken, with expected amounts changed by what it adds |
| PdvService.PdvRoundtripService.StartCashClosure | electron/src/main/pdv/service.ts:387-398 | a closure starts with the number of comandas in payment at that moment; the answer is the closing session or the first error |
| NsAccessKey.NumeroReadBack | electron/src/main/fiscal/ns-provider.ts:163-186 | below 10^9 the document number stands in characters 8..17 of the key and reads back |
| NsAccessKey.KeyParts | electron/src/main/fiscal/ns-provider.ts:163-186 | below 10^9 every part of a key stands in its own place |
| NsAccessKey.KeysDiffer | electron/src/main/fiscal/ns-provider.ts:163-186 | different numbers below 10^9 give different keys |
| NsAccessKey.KeysRepeatIffShifted | electron/src/main/fiscal/ns-provider.ts:163-186 | two documents of one emitter share a key if and only if the longer number, the emitter digits and the second terminal's digits are those of the first shifted by the extra places |
| NsAccessKey.OneTerminalRepeats | electron/src/main/fiscal/ns-provider.ts:163-186 | on one terminal keys repeat if and only if emitter and terminal have no digit but zero and one number is the other with zeros behind it |
| NsAccessKey.KeysRepeatAtTheLimit | electron/src/main/fiscal/ns-provider.ts:163-186 | at 10^9 a key repeats that of 10^8: the bound is exact |
| FiscalWorkers.ReachableState | electron/src/main/fiscal/service.ts:136-491 | every interleaving of checkouts, claims, answers and crashes keeps rows mirrored, events sound, numbering and keys |
| FiscalWorkers.StepKeepsInv | electron/src/main/fiscal/service.ts:136-491 | every step keeps it, and keeps documents in place and events forever |
| FiscalWorkers.PatchMirrors | packages/db/src/repositories/fiscal.ts:216-330 | one input of appendState keeps the document and its queue row in agreement |
| FiscalWorkers.InsertKeepsEvents | packages/db/src/repositories/fiscal.ts:860-898 | inserting an event, or dropping it on a conflict, leaves its status carried |
| FiscalWorkers.HighestIsCount | packages/db/src/repositories/fiscal.ts:487-498 | the highest number of an emitter is how many documents it has |
| FiscalWorkers.AnswerKey | electron/src/main/fiscal/ns-provider.ts:105-152 | under the provider's contract an answer's key is the document's own, whenever it was asked for |
| FiscalSafety.RowsMirrored | packages/db/src/repositories/fiscal.ts:202-330 | document and queue rows agree on every shared column in every reachable state |
| FiscalSafety.StatusHistory | packages/db/src/repositories/fiscal.ts:202-352 | every status a document ever had is carried by an event of its trail |
| FiscalSafety.NumbersWithoutGap | electron/src/main/fiscal/service.ts:154-186 | an emitter's documents are numbered 1..n and no comanda has two |
| FiscalSafety.KeysDistinct | electron/src/main/fiscal/ns-provider.ts:163-186 | below 10^9 documents an emitter's access keys are pairwise distinct |
| FiscalSafety.KeysRepeat | electron/src/main/fiscal/ns-provider.ts:163-186 | beyond 10^9 documents, exactly which two documents of an emitter share an access key |
| FiscalSafety.OneHolder | packages/db/src/repositories/fiscal-queue.ts:276-312 | in a safe run, one without a claim of a held row, a document has at most one holder, its row carries that holder's lease, and the holder's copy is up to date |
| FiscalSafety.RunningLeasesAreSafe | packages/db/src/repositories/fiscal-queue.ts:276-312 | a claim whose time comes before every live lease's end takes no held row |
| FiscalOverlap.ClaimKeepsIffSafe | packages/db/src/repositories/fiscal-queue.ts:276-312 | a claim keeps one holder a document if and only if its row is held by no live worker |
| FiscalOverlap.TwoHoldersUndo | electron/src/main/fiscal/service.ts:433-463 | from every state with the invariant and two live holders of one document, an accepted authorization of the one and an accepted rejection of the other leave it authorized and then rejected |
| FiscalOverlap.UnsafeClaimUndoes | electron/src/main/fiscal/service.ts:411-463 | after any claim of a held row there are two such answers |
| FiscalOverlap.UnsafeRunUndoes | electron/src/main/fiscal/service.ts:411-463 | every run with a claim of a held row has, up to the first of them, a continuation in which an authorized document becomes rejected |
| FiscalSafety.SettledForever | electron/src/main/fiscal/service.ts:679-766 | in a safe run AUTHORIZED, and REJECTED without a retry time, never change again and are never called for again |
| FiscalSafety.AuthorizedOnce | electron/src/main/fiscal/service.ts:433-463 | in a safe run no answer for a document follows its authorization |
| FiscalSafety.ContingencyFrozen | electron/src/main/fiscal/service.ts:579-931 | in a safe run a document in contingency keeps its mode, dhCont, xJust and key |
| FiscalOverlap.OverlapUndoesAuthorization | electron/src/main/fiscal/service.ts:411-463 | one such run: two overlapping ticks, the second claiming when the first one's lease ends |
| FiscalService.ProcessedRow | electron/src/main/fiscal/service.ts:411-463 | under the provider's contract an iteration never misses the emitter and leaves its row not ready, in the status it is counted under |
| FiscalAnswers.AnswerStored | electron/src/main/fiscal/service.ts:679-930 | an authorization stores the answer's reference, key and time and clears the errors; a rejection stores its code and message; a contingency its key, start and justification; the row is ready exactly from the answer's retry time on, or never |
| FiscalAnswers.AbandonedRetried | electron/src/main/fiscal/service.ts:411-431 | a claim that ends without an answer leaves the row ready again exactly when its lease is over |
| FiscalService.RowStored | electron/src/main/fiscal/service.ts:411-463 | an iteration stores the deciding answer on its document, or rejects it for want of its emitter |
| FiscalService.CycleProperties | electron/src/main/fiscal/service.ts:402-491 | a cycle handles each document at most once and in creation order, touches nothing else, and stops early only when nothing is ready |
| FiscalService.CountsAddUp | electron/src/main/fiscal/service.ts:465-490 | processedCount = authorized + rejected + pending + contingency |
| FiscalService.FiscalRepository.ClaimNextReady | packages/db/src/repositories/fiscal-queue.ts:276-312 | the first ready row in creation order is leased, or nothing changes |
| FiscalService.FiscalRepository.Append | packages/db/src/repositories/fiscal.ts:216-352 | both updates and the event of one appendState |
| FiscalService.FiscalQueueService.QueueCheckoutNfce | electron/src/main/fiscal/service.ts:136-216 | a checkout queues one draft with the next number, for the comanda, terminal and emitter given, once, and keeps rows and numbering |
| FiscalService.FiscalQueueService.ProcessNext | electron/src/main/fiscal/service.ts:411-463 | claim, sign or query, ask and acknowledge as the row function says; what is left is the deciding answer's own data and retry time |
| FiscalService.FiscalQueueService.ProcessQueue | electron/src/main/fiscal/service.ts:402-491 | the loop with its four counters |
| PedidoList.KeyDecidesItem | apps/pdv/src/ui/view.ts:1997-2007 | a key of an item without the delimiter in its texts is no other item's key, with it or without |
| PedidoList.KeyDecidesContent | apps/pdv/src/ui/view.ts:1997-2007 | an update shows the item, whatever item the element showed before, if and only if label, note and setor hold no delimiter |
| PedidoList.ShiftedSharesKey | apps/pdv/src/ui/view.ts:1997-2007 | every item with the delimiter in label, note or setor shares its key with another one that shows something else |
| PedidoList.KeyWithDelimiterIsAmbiguous | apps/pdv/src/ui/view.ts:1997-2007 | one such pair |
| PedidoList.WholeLineCents | apps/pdv/src/ui/view.ts:2184-2205 | a whole quantity shows exactly quantity times price |
| PedidoList.Node.Update | apps/pdv/src/ui/view.ts:1973-1995 | an element with the item's key already is left as it is, any other one shows the item; without the delimiter in the texts it always shows the item |
| PedidoList.Node.RenderPedidoItem | apps/pdv/src/ui/view.ts:2184-2205 | a new element shows its item, whatever its texts |
| PedidoList.PedidoContainer.Place | apps/pdv/src/ui/view.ts:1903-1923 | one pass refreshes or renders the item's element, puts it right behind the placed ones and moves the cursor past it |
| PedidoList.PedidoContainer.RemoveStale | apps/pdv/src/ui/view.ts:1925-1927 | removing what was not reused leaves the placed elements and the text nodes |
| PedidoList.PedidoContainer.ReconcilePedidoList | apps/pdv/src/ui/view.ts:1873-1930 | one element an item in item order, surviving elements reused and refreshed, stale ones gone, old text nodes behind; the list is what a full rendering shows if and only if no surviving element keeps another content behind an equal key |
| PedidoList.ReconciliationIsExact | apps/pdv/src/ui/view.ts:1873-2007 | whatever items were shown before, the reconciled list is what a full rendering shows, if and only if no item has the delimiter in label, note or setor |
| PedidoList.ListedShowsItems | apps/pdv/src/ui/view.ts:1873-2007 | after a reconciliation every element shows some item again, so the next one starts from such a list |
| PedidoList.PedidoContainer.Render | apps/pdv/src/ui/view.ts:2174-2205 | a full rendering shows the items, whatever their texts, and with distinct ids leaves a list that can be reconciled |
| PedidoList.MovesUp | apps/pdv/src/ui/view.ts:1914-1915 | insertBefore moves a later element in front of the cursor and keeps the order of the others |

## Left out

- Audit events, the audit export, the derived `cashCheckoutRequestedAt` of a reload and the log store: the aggregates never read them.
- Blank-id checks of the aggregates (`COMANDA_ID_INVALIDO`, `ITEM_ID_INVALIDO`, `PAGAMENTO_ID_INVALIDO`, `CAIXA_ID_INVALIDO`): ids are natural numbers; their order stands for the order of the generated strings.
- Number checks (`Number.isInteger`, `Number.isFinite`): cents are integers and quantities rationals; floating-point rounding, fractional cents and overflow to infinity are not modelled.
- PdvRuns.SaveAccepted: does not speak of a caller that supplies ids itself; every generated id is taken to be new.
- Repositories.ComandaRepository.HasActiveNumero: gives existence only, because at most one active comanda has a numero; `updated_at` ordering is not modelled.
- PdvService.PdvRoundtripService.ConfirmComandaPayment: leaves out the fiscal enqueueing after the transaction, whose failure the service catches; `FiscalService.FiscalQueueService.QueueCheckoutNfce` models it apart.
- PdvTransactions.RunIsStep: reads do not fail, so a save whose closing read throws after its own COMMIT is not modelled; the audit inserts of a transaction are not among its statements.
- The print service's own calls (module `PrintService`) work on the job table alone and not through the connection; a send's tickets do, and `EnqueueTickets` is what both come to.
- Transactions.Connection.ExecuteTransaction: takes BEGIN and SAVEPOINT to succeed, as inside the connection's own nesting they do; when one of them throws, the depth counter is not restored. ROLLBACK, ROLLBACK TO and the RELEASE behind it succeed.
- The fiscal repository's own `executeTransaction` (packages/db/src/repositories/fiscal.ts:1085-1095), which does not nest: each `saveDraft` and `appendState` is one step.
- Creation order under equal or backward clocks: jobs, documents and queue rows are lists in insertion order.
- PrintSpool.GroupItemsBySetor: leaves out the printer routing table; routing is a function from setor to a printer name.
- PrintService.PrintSpoolRepository.ClaimNextReady: leaves out the optional setor filter, which the worker does not use.
- The printer driver, ticket rendering, spool files, the secret store, the provider's network and stored XML or DANFE files: the driver and the provider are oracles, and a throw from any of them is a crash between two steps.
- FiscalSafety.OneHolder: `queryStatusByAccessKey` is not a step; it writes back a status read before its wait, so AUTHORIZED would not be absorbing with it.
- FiscalSafety.NumbersWithoutGap: documents queued with caller-chosen ids and numbers (`fiscal.queueNfce` over IPC) are not modelled, nor is `print.enqueueProduction` for tickets.
- The paths, payload and response columns of fiscal rows, and the `attempts` column, which the worker never writes.
- NsAccessKey.KeysRepeatIffShifted: leaves out numbers of more than 14 digits, behind which the key is cut off.
- NsAccessKey.KeysDiffer: is about this layout of 44 characters, not about the official NF-e key format.
- PedidoList.PedidoContainer.ReconcilePedidoList: leaves out keyboard focus and HTML escaping; the quantity is its number's own text and the total is kept in cents before `formatCurrency`.
- Catalogue, authentication, setup, backup, migrations, the waiter HTTP server and the rest of the shell state: look-ups and plumbing.

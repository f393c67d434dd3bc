# Verified model of PPOps

A Dafny model of the parts of PPOps on which money depends, with machine-checked proofs. PPOps receives private
USDC payments: a merchant server matches notes found on chain to payment intents and tells a shop about it by
webhook; a payer tool sends the payments, through Broadcasters or self-signed.

`dafny verify dfyconfig.toml` checks everything.

## What is modelled

**The payer's submission protocol** (`Journal`, `JournalSize`, `JournalText`, `SubmissionJournal`, `JournalFacts`,
`JournalOutcomes`, `JournalLimits`, `BroadcasterSelection`, `ReceiptQuorum`, `PayerProtocol`, `PayerInvariant`,
`PayerSteps`, `PayerTheorems`, `PayerCommands`, `PayerProgress`, `PayerOutcomes`, `PayerLimits`). The write-ahead
journal is a class whose methods rewrite its records; its file has the size of its JSON text, and every operation
reads it first, within the 2 MiB that a read admits. The commands are steps over the durable journal, the messages
that have left, the chain and the receipts read; a crash may come between any two steps, anybody may mine anything
that spends no spent nullifier, and Broadcasters may answer anything. The methods of `PayerCommands` are proved to
perform exactly those steps. The runtime lock is what lets one command run at a time.

**The merchant server** (`Domain`, `Sums`, `Projection`, `Crossing`, `Database`, `Reconciliation`, `ServerInvariant`,
`ServerSteps`, `ServerFacts`, `ServerProgress`, `EventTriggers`, `Sightings`, `Reachable`). The tables are fields of a
class, the services are its clients, and a transaction that throws leaves the tables as they were. Scans of many notes
are in `Scan`, `ScanFacts`, `ReplayFacts` and `Rechecks`, the concurrent normalisation of notes in `WorkerPool`, and
the creation of intents under idempotency keys, with calls interleaved at their await, in `Idempotency`.

**Delivery and the shop** (`Delivery`, `DeliveryFacts`, `Merchant`, `Arrivals`, `System`, `SystemInvariant`,
`SystemSteps`, `SystemRuns`, `EndToEnd`, `Fulfilment`). Server, delivery passes, network and merchant database form
one system, in which webhooks may be lost, repeated and reordered, passes may crash between any two database
statements, and operators may replay.

**Quorums** (`Quorum`, `RpcQuorum`), **the checkout** (`Checkout`) and **amounts as text** (`Usdc`). `Results` and
`Sequences` hold what several of them share.

Identifiers, addresses, nullifiers and hashes are numbers after case folding. Hashes are injective: a fingerprint or a
dedupe key is a value that spells out its parts. Amounts and times are natural numbers. Clocks, random draws, answers
of providers and Broadcasters, and results of the wallet SDK are parameters or steps.

## Model

| member | source | states |
|---|---|---|
| `PayerTheorems.SendFollowsReservation` | tools/ppops-payer/src/railgun/broadcaster-transfer.ts:341-376 | In every run, whenever a message leaves, the journal on disk already holds its reservation: unresolved, with the same nullifiers, and with this Broadcaster as its last reserved one (or, self-signed, with this hash) |
| `PayerTheorems.MessagesAgree` | tools/ppops-payer/src/railgun/broadcaster-transfer.ts:144-157 | Any two messages ever sent for one intent go the same way; to Broadcasters they carry the same nullifier set, go to different Broadcasters, and there are at most four |
| `PayerTheorems.AtMostOnePaymentMined` | tools/ppops-payer/src/railgun/broadcaster-transfer.ts:301-305 | A chain that rejects spent nullifiers mines at most one of all payloads sent to Broadcasters for an intent, whoever submits them and how often |
| `PayerTheorems.RecordsTellTheTruth` | tools/ppops-payer/src/security/submission-journal.ts:107-246 | Bounds on retries, codes and messages; REJECTED means exactly one message, no ambiguity, no retry, no hash; SUBMITTING has no hash; a canonical hash names a successful transaction spending the record's nullifiers; MINED and REVERTED rest on a receipt quorum; all Broadcasters tried are distinct |
| `PayerTheorems.OutcomeRestsOnCorrectProvider` | tools/ppops-payer/src/railgun/rpc-quorum.ts:181-212 | In every run in which each round of receipt requests met fewer faulty providers than it required to agree, a recorded outcome goes back to one of those rounds and to a provider outside the faulty ones that reported this hash, block and status |
| `PayerTheorems.TruthfulProvidersSeeNoReversal` | tools/ppops-payer/src/railgun/broadcaster-transfer.ts:438-495 | If, further, the other providers report success exactly of transactions that succeeded, no Broadcaster record is ever REVERTED: the hash that recovery finds is the hash of a success |
| `PayerTheorems.ActiveReservationsAreDisjoint` | tools/ppops-payer/src/security/submission-journal.ts:277-293 | In every run, active Broadcaster records of different intents share no nullifier |
| `PayerTheorems.JournalMovesForward` | tools/ppops-payer/src/security/submission-journal.ts:448-738 | Between any two moments of a run, crashes included, records stay, keep intent, mode, payer and nullifiers, never replace a hash, and MINED, REVERTED and REJECTED never change |
| `PayerTheorems.WriteFailsIff` | tools/ppops-payer/src/railgun/broadcaster-transfer.ts:362-435 | In every run, the journal operation of a running command throws exactly in these cases: a retry is reserved with other nullifiers than the record has; or the answer, hash or outcome is to be recorded in a journal file that has outgrown its 2 MiB read limit. A first or a self-signed reservation never throws; the schema never rejects an answer and a recovered hash never contradicts a recorded one |
| `PayerTheorems.TooLargeIsForever` | tools/ppops-payer/src/security/submission-journal.ts:740-754 | Once a run's journal exceeds the read limit, no later step changes it |
| `PayerLimits.PaymentOutgrowsItsJournal` | tools/ppops-payer/src/security/submission-journal.ts:756-783 | The code does not secure the answer: whatever transfer can be prepared at all, there is a run in which it is reserved and sent although the reservation makes the journal unreadable, with fewer than 10,000 records, and after which nothing is ever recorded again, neither the answer nor any recovery |
| `JournalLimits.JournalOutgrowsItsReader` | tools/ppops-payer/src/security/submission-journal.ts:740-783 | Some number of reservations leaves a readable journal, below the schema limit on records; one more is stored, and no sequence of operations after it changes anything again |
| `JournalSize.ReadableIsBelowCapacity` | tools/ppops-payer/src/security/private-file.ts:9-19 | Every readable journal has at most 8,192 records: the read limit always comes before the schema's 10,000 |
| `PayerTheorems.AnswerLandsOnItsAttempt` | tools/ppops-payer/src/railgun/broadcaster-transfer.ts:374-423 | The last message sent is the one being answered; the answer settles the attempt that is RESERVED for its Broadcaster and quote, and leaves every other attempt and record alone; only a first-attempt rejection makes the record REJECTED (for a journal that can be read; otherwise WriteFailsIff says that nothing is recorded) |
| `PayerTheorems.OnlyRecoverySetsHash` | tools/ppops-payer/src/railgun/broadcaster-transfer.ts:438-466 | A step sets a Broadcaster record's canonical hash only from recovery by its nullifiers, once; it sets a block number only while a selected receipt is at hand |
| `PayerSteps.PlanIsSound` | tools/ppops-payer/src/railgun/broadcaster-transfer.ts:173-350 | What is reserved is for this payer, with a Broadcaster not tried before, at the address, token and fee rate of the quote discovered before the proof, under the fingerprint and fee id of a quote on offer at submission, for the calculated positive fee within the limit, and with free, well-formed nullifiers |
| `PayerSteps.NextKeeps` | tools/ppops-payer/src/railgun/broadcaster-transfer.ts:123-519 | Every step of a command, of the chain, or a crash keeps the invariant from which the theorems above follow |
| `PayerSteps.ReplyKeeps` | tools/ppops-payer/src/railgun/broadcaster-transfer.ts:374-435 | Recording an answer keeps the accounts: answers outstanding and codes recorded never exceed one more than the retries |
| `PayerSteps.StoreRetryKeeps` | tools/ppops-payer/src/security/submission-journal.ts:448-504 | Reserving a retry keeps the accounts and the distinctness of Broadcasters |
| `PayerSteps.MineKeeps` | tools/ppops-payer/src/railgun/broadcaster-transfer.ts:438-441 | Transactions mined by anyone keep canonical hashes true |
| `PayerInvariant.CompletedOnce` | tools/ppops-payer/src/railgun/engine.ts:252-273 | The nullifiers of a reservation identify at most one successful transaction, so recovery is unambiguous |
| `PayerCommands.Payer.SendBroadcasterTransfer` | tools/ppops-payer/src/railgun/broadcaster-transfer.ts:123-519 | With submit, the effect on journal, messages and reads equals the steps of the protocol in order, stopping at the first guard or write that throws; without, guard and preparation run up to the quote that is current after the proof, which is reported, and nothing changes; an ambiguous retry without submit is refused |
| `PayerCommands.Payer.DraftTransfer` | tools/ppops-payer/src/railgun/broadcaster-transfer.ts:173-320 | Discovery, fee limit, nullifier and conflict guards and the first quote rotation |
| `PayerCommands.PlanCompletesDraft` | tools/ppops-payer/src/railgun/broadcaster-transfer.ts:320-350 | What a dry run leaves open: after the same preparation a submission is planned exactly if the quote still has a live match, and then on the terms of that match |
| `PayerCommands.Payer.PrepareReservation` | tools/ppops-payer/src/railgun/broadcaster-transfer.ts:141-372 | Guard, preparation and reservation are the three opening steps |
| `PayerCommands.Payer.PrepareTransfer` | tools/ppops-payer/src/railgun/broadcaster-transfer.ts:173-350 | Discovery, fee limit, nullifier and conflict guards and the two quote rotations, as the plan that PlanIsSound describes |
| `PayerCommands.Payer.SubmitPrepared` | tools/ppops-payer/src/railgun/broadcaster-transfer.ts:374-435 | Sending and recording the answer are the protocol's exchange |
| `PayerCommands.Payer.Resolve` | tools/ppops-payer/src/railgun/broadcaster-transfer.ts:438-495 | Recovery, hash, receipt round and outcome are the protocol's resolution |
| `PayerCommands.Payer.RecoverBroadcaster` | tools/ppops-payer/src/cli.ts:1022-1142 | The recovery command is the same resolution, begun from the journal; records in a final state are left alone |
| `PayerCommands.Payer.SendSelfSignedTransfer` | tools/ppops-payer/src/railgun/self-signed-transfer.ts:168-463 | Reserve, broadcast, submitted, mined, in this order, stopping at the first failure |
| `PayerProgress.PaymentCanBeSent` | tools/ppops-payer/src/railgun/broadcaster-transfer.ts:141-376 | From every idle state that runs reach with a journal within its read limit, a first send, or one of up to three retries of an unanswered one, gets its message out when quotes stay live, the fee fits and the nullifiers are free |
| `PayerProgress.LiveQuotesGiveAPlan` | tools/ppops-payer/src/railgun/broadcaster-transfer.ts:181-350 | With live quotes, an acceptable fee, free nullifiers and a readable journal no guard of the preparation throws |
| `PayerOutcomes.BeginsIff` | tools/ppops-payer/src/cli.ts:1022-1060 | Each command starts exactly when the journal allows it: a send for a new request; a retry for the same signed request and payer with nothing known of the outcome and fewer than three retries, leaving out every Broadcaster ever asked; a recovery for the payer's own unfinished payment; otherwise nothing changes |
| `PayerOutcomes.ReservationIsOnItsTerms` | tools/ppops-payer/src/railgun/broadcaster-transfer.ts:354-372 | In every run, from reservation to answer, the record carries the signed request, the payer, and the quote, fee id, fee and nullifiers of the transfer that made it |
| `PayerOutcomes.UnclearPaymentCanGoOn` | tools/ppops-payer/src/security/submission-journal.ts:323-350 | After any unclear answer that could be recorded, first or retry, the payer's retry and recovery go on with that payment; no other payer, no other signature and no new send does |
| `PayerOutcomes.UnclearTransferCanGoOn` | tools/ppops-payer/src/security/submission-journal.ts:323-350 | For a first transfer in every run: the retry leaves out exactly the Broadcaster that was asked, and the recovery looks for exactly the nullifiers that were sent |
| `PayerOutcomes.ReportLeadsToRecovery` | tools/ppops-payer/src/railgun/broadcaster-transfer.ts:424-441 | A reported hash that can be recorded leads on to the search for the transaction |
| `PayerOutcomes.RecoveryRecordsOutcome` | tools/ppops-payer/src/railgun/broadcaster-transfer.ts:438-495 | In every run: a command that finds a successful transaction which spent the nullifiers, and a receipt quorum for it, ends with that hash, outcome and block in the record, as long as the journal stays readable |
| `PayerOutcomes.SelfSignedIsRecorded` | tools/ppops-payer/src/railgun/self-signed-transfer.ts:168-463 | In every run: a self-signed payment of a new request leaves as the stored transaction, and its record ends with that signer, nonce and hash and the outcome waited for, as long as the journal stays readable |
| `JournalFacts.ReachableJournalOk` | tools/ppops-payer/src/security/submission-journal.ts:399-446 | In every journal that any sequence of operations produces, records fit the schema, intents are unique, and active records have disjoint nullifiers |
| `JournalFacts.RecordsMoveForward` | tools/ppops-payer/src/security/submission-journal.ts:448-738 | Over any stretch of operations nothing is lost and final statuses absorb |
| `JournalFacts.SchemaViolationIff` | tools/ppops-payer/src/security/submission-journal.ts:756-757 | For every operation on every valid journal: the operation gets past its read and its guards and then fails validation exactly for a bad reservation or for a fifth distinct ambiguity code; the limit on records is never what fails, as the read limit comes first |
| `JournalOutcomes.OperationOutcome` | tools/ppops-payer/src/security/submission-journal.ts:371-738 | For every operation on every journal that operations produce and that can be read: which error it throws in which case, or what becomes of each field of the record of its intent; nothing else in the journal changes |
| `JournalOutcomes.RetryableIff` | tools/ppops-payer/src/security/submission-journal.ts:323-350 | Which record may be retried by whom, and which error it is otherwise |
| `JournalText.FileSizeIsLength` | tools/ppops-payer/src/security/submission-journal.ts:756-765 | The size that decides whether a journal is readable is the length of the text that JSON.stringify with an indentation of two and a newline make of it |
| `JournalText.ReadableIff` | tools/ppops-payer/src/security/submission-journal.ts:740-749 | A journal can be read exactly if that text has at most 2,097,152 bytes |
| `JournalFacts.OnlyMarksSetHash` | tools/ppops-payer/src/security/submission-journal.ts:686-738 | Only markSubmitted sets a hash, to its argument; only markMined sets a block number |
| `JournalLimits.JournalDoesNotCountOutcomes` | tools/ppops-payer/src/security/submission-journal.ts:506-634 | A sequence of journal operations reaches a record from which a fifth code passes the guards and is refused by the schema, and a rejection after four recorded ambiguities is stored; the one-outcome-per-message rule belongs to the caller |
| `JournalModel.SameNullifierSetIff` | tools/ppops-payer/src/security/submission-journal.ts:295-302 | Comparing sorted lists decides equality of the two collections |
| `SubmissionJournalModel.SubmissionJournal.Store` | tools/ppops-payer/src/security/submission-journal.ts:756-783 | Parses, then replaces; a refusal leaves the records |
| `SubmissionJournalModel.SubmissionJournal.ReserveSelfSigned` | tools/ppops-payer/src/security/submission-journal.ts:371-397 | Reservation of a self-signed transaction, with its error case |
| `SubmissionJournalModel.SubmissionJournal.ReserveForBroadcaster` | tools/ppops-payer/src/security/submission-journal.ts:399-446 | First reservation, with both error cases |
| `SubmissionJournalModel.SubmissionJournal.ReserveForRetry` | tools/ppops-payer/src/security/submission-journal.ts:448-504 | Retry reservation: same request, payer and nullifier set, at most three |
| `SubmissionJournalModel.SubmissionJournal.FindLastReserved` | tools/ppops-payer/src/security/submission-journal.ts:543-549 | The loop finds the last reserved attempt, optionally with a given quote |
| `SubmissionJournalModel.SubmissionJournal.RecordRejection` | tools/ppops-payer/src/security/submission-journal.ts:506-531 | Rejection of a first attempt |
| `SubmissionJournalModel.SubmissionJournal.RecordRetryRejection` | tools/ppops-payer/src/security/submission-journal.ts:533-578 | Rejection of a retry attempt |
| `SubmissionJournalModel.SubmissionJournal.RecordAmbiguity` | tools/ppops-payer/src/security/submission-journal.ts:580-634 | Ambiguous answer, codes without repetition |
| `SubmissionJournalModel.SubmissionJournal.RecordReport` | tools/ppops-payer/src/security/submission-journal.ts:636-684 | Reported hash, idempotent, conflicting hashes refused |
| `SubmissionJournalModel.SubmissionJournal.RecordReceipt` | tools/ppops-payer/src/security/submission-journal.ts:686-710 | Outcome of a submitted transaction, idempotent |
| `SubmissionJournalModel.SubmissionJournal.RecordSubmission` | tools/ppops-payer/src/security/submission-journal.ts:712-738 | Canonical hash, idempotent, conflicting hashes refused |
| `BroadcasterSelection.DiscoverIsBest` | tools/ppops-payer/src/broadcaster/session.ts:209-260 | Discovery selects a valid quote of an untried Broadcaster such that none is cheaper, or equally cheap and more reliable; nothing only if there is none |
| `BroadcasterSelection.SelectionKeepsProof` | tools/ppops-payer/src/broadcaster/session.ts:150-194 | Re-selection keeps address, token and fee rate, prefers the identical quote, and fails exactly if no live quote fits the proof |
| `BroadcasterSelection.DiscoveredIff` | tools/ppops-payer/src/broadcaster/session.ts:113-136 | In the fields of the quotes: discovery finds a quote exactly if an untried Broadcaster makes a usable offer, and then one that is cheapest, among those most reliable, and among those first in the order of digests |
| `BroadcasterSelection.ReselectedIff` | tools/ppops-payer/src/broadcaster/session.ts:138-194 | In the fields of the quotes: re-selection finds a quote exactly if one on offer has the Broadcaster, token and rate of the proof, and the identical one if it is on offer |
| `BroadcasterSelection.SortPutsLeastFirst` | tools/ppops-payer/src/broadcaster/session.ts:196-207 | The first element after the stable sort precedes every other |
| `BroadcasterSelection.SelectDiscoverable` | tools/ppops-payer/src/broadcaster/session.ts:209-260 | The selection, and the exact counts: offers that validate, Broadcasters behind them, and of those the untried and the excluded |
| `BroadcasterSelection.SelectSubmissionBroadcaster` | tools/ppops-payer/src/broadcaster/session.ts:165-194 | The candidate loop computes the re-selection |
| `BroadcasterSelection.ValidateAll` | tools/ppops-payer/src/broadcaster/session.ts:172-185 | The loop keeps exactly the candidates that validate, in order |
| `Reachable.ProjectionsAreFolds` | src/reconciliation/service.ts:44-126 | In every reachable state: received is the sum of MATCHED, FINALIZED, SPENDABLE value; received, pending and reverted add up to all matched value; overpayment is the excess; PAID or PAID_LATE iff received covers, PARTIAL iff strictly between, OPEN or EXPIRED iff nothing; a row names an intent iff MATCHED |
| `Reachable.PaidMeansOnTime` | src/reconciliation/projection.ts:21-48 | In every reachable state, with timestamps that follow the chain: PAID iff the credited value stamped at or before expiry covers the amount, PAID_LATE iff only later value does |
| `Reachable.EventsFollowProjections` | src/reconciliation/service.ts:106-147 | In every reachable state, for each intent: between any two confirmations lies a reversal, between any two reversals a confirmation, before every reversal a confirmation, and there is one more confirmation than reversal exactly while the intent counts as paid |
| `Reachable.ServedRequestsAreSafe` | src/api/app.ts:169-177 | Every request served from a reachable state passes the browser's consistency check; page and payer agree; they pay exactly if no settlement at all is matched, the intent is OPEN and in time and the server ready |
| `ServerSteps.ReconcileKeeps` | src/reconciliation/service.ts:44-92 | A committed reconciliation keeps the server invariant: rows, projections, event log |
| `ServerSteps.RefreshKeeps` | src/reconciliation/service.ts:94-104 | So does a refresh of any listing |
| `ServerSteps.CreateKeeps` | src/intents/service.ts:95-167 | So does the creation of an intent |
| `ServerSteps.MatchIsStable` | src/reconciliation/service.ts:47-57 | A stored match never moves to another intent nor gets lost |
| `ServerFacts.MatchedValueIsConserved` | src/reconciliation/projection.ts:8-19 | Creditable, pending and reverted value partition the matched value |
| `ServerFacts.AmountsAreSums` | src/reconciliation/projection.ts:56-66 | Stored amounts are sums over the table in any row order |
| `ServerFacts.StatusFollowsAmounts` | src/reconciliation/projection.ts:50-78 | Stored status and overpayment follow from stored amounts |
| `ServerFacts.PaidHasCrossing` | src/reconciliation/projection.ts:29-44 | A paid intent has a credited settlement at whose place on chain the amount is first covered; PAID iff that one is stamped in time |
| `ServerFacts.ConfirmationsAndReversalsTakeTurns` | src/reconciliation/service.ts:23-39 | The same for every outbox that satisfies the server invariant, at whatever positions the events stand |
| `ServerFacts.ConfirmedExactlyWhilePaid` | src/reconciliation/service.ts:23-39 | Confirmations exceed reversals by one exactly while the projection is paid |
| `ServerFacts.RebuildRecords` | src/db/database.ts:458-477 | INSERT OR IGNORE never drops a transition event: the dedupe key is always fresh |
| `Reconciliation.ReconciliationService.Reconcile` | src/reconciliation/service.ts:44-92 | The transaction, with rollback on identity collision and on the UTXO constraint |
| `Reconciliation.ReconciliationService.RebuildProjection` | src/reconciliation/service.ts:106-126 | Derive, store if the revision moved, emit the event the change calls for |
| `Reconciliation.ReconciliationService.RefreshExpirations` | src/reconciliation/service.ts:94-104 | The loop, and the count of intents whose revision moved |
| `CrossingFacts.CrossingIsCut` | src/reconciliation/projection.ts:29-43 | The loop stops at the settlement below which the credited value falls short and up to which it suffices |
| `CrossingFacts.CutUnique` | src/reconciliation/projection.ts:29-43 | Two such settlements stand at the same place on chain |
| `CrossingFacts.StatusIgnoresOrder` | src/reconciliation/projection.ts:30-44 | The status depends on the set of credited settlements, not on their order; of a covered intent not on the clock |
| `CrossingFacts.PaidIffCoveredOnTime` | src/reconciliation/projection.ts:21-48 | PAID iff value stamped in time covers; otherwise a covered intent is PAID_LATE |
| `CrossingFacts.PaidCrossing` | src/reconciliation/projection.ts:36-44 | Without an assumption on timestamps, PAID still says the crossing settlement was stamped in time |
| `ProjectionModel.StatusFor` | src/reconciliation/projection.ts:21-48 | The sort-and-accumulate loop computes the status that these lemmas describe |
| `Database.PPOpsDatabase.Insert` | src/db/database.ts:260-291 | Intent and OPEN projection, or nothing on a duplicate id or reference |
| `Database.PPOpsDatabase.LookUpIntent` | src/db/database.ts:329-334 | Lookup through the unique reference |
| `Database.PPOpsDatabase.UpsertSettlement` | src/db/database.ts:369-419 | Insert or update in place, refusing a second row for one UTXO |
| `Database.PPOpsDatabase.UpdateProjection` | src/db/database.ts:350-367 | Rewrites one existing projection |
| `Database.PPOpsDatabase.RecordEvent` | src/db/database.ts:458-477 | Appends the event unless its id is known, and says which |
| `ScanFacts.BatchOrderIsIrrelevant` | src/runtime.ts:98-107 | Candidates with distinct ids reconciled at one time give the same settlements, amounts and statuses in every order, if equal places on chain carry equal timestamps |
| `ScanFacts.BatchOutcome` | src/runtime.ts:98-107 | Such a batch goes through; every row is the one its candidate alone would give; touched projections are current, others untouched |
| `ReplayFacts.ReplayIsQuiet` | src/runtime.ts:98-107 | Scanning stored notes again, any number of times, while no request crosses its expiry, changes no projection and emits nothing |
| `ReplayFacts.RepeatedNoteIsQuiet` | src/reconciliation/service.ts:44-92 | A repeated note changes no amount; the projection moves iff an empty request crosses its expiry, and an event appears iff an open one does |
| `ReplayFacts.SpentStaysCredited` | src/railgun/scanner.ts:60-81 | A credited note that is reported Spent, with or without proof data, stays credited and leaves its request alone |
| `ReplayFacts.DeriveAgain` | src/reconciliation/projection.ts:50-78 | Deriving again from the same settlements can only move an empty request at its expiry |
| `ScanModel.ScanOnce` | src/runtime.ts:98-132 | Candidates first, then the rows due for recheck that were not among them; the first failure ends the scan; the count of rechecks: the scan that ScanLooksUp describes |
| `ScanModel.ReconcileAll` | src/runtime.ts:102-107 | The loop over the candidates and the set of ids seen |
| `ScanModel.RecheckAll` | src/runtime.ts:109-120 | The loop over the rows due for recheck |
| `RecheckFacts.ScanLooksUp` | src/runtime.ts:98-132 | After a scan whose candidates fit: each row that stands once they are in, is not among them, and is not final or became eligible within the window was looked up once and carries what the providers say; every other row stands; the count is the number of the former |
| `ScanModel.PoiMeans` | src/railgun/scanner.ts:60-81 | Which buckets make a note spendable, blocked, pending or unknown |
| `WorkerPool.PoolMapsInputs` | src/railgun/scanner.ts:37-58 | In every interleaving, when the workers are done each defined input was operated on exactly once, in cursor order, and its output stands at its index |
| `WorkerPool.OutstandingIsBounded` | src/railgun/scanner.ts:37-58 | At every moment of every interleaving at most the given number of operations have been called and not completed |
| `WorkerPool.CompletionIsProgress` | src/railgun/scanner.ts:46-54 | Every completed operation brings the end nearer |
| `CheckoutModel.CanPayIff` | src/api/checkout-model.ts:135-142 | The pay button shows iff nothing is matched to the intent, it is OPEN and in time, and the server is ready |
| `CheckoutModel.PayerAcceptsIff` | tools/ppops-payer/src/request.ts:115-142 | The payer accepts a request with a stage under the same condition |
| `CheckoutModel.PayerAcceptsWithoutStageIff` | tools/ppops-payer/src/request.ts:135-139 | Without the stage field it also accepts when all matched settlements are reverted, and in no other further case |
| `CheckoutModel.PayerAcceptsWithoutReadyIff` | tools/ppops-payer/src/request.ts:115-142 | A request that does not say whether the server is ready is accepted as if it were |
| `CheckoutModel.ServedTells` | src/api/app.ts:169-177 | A served request has the stored status, the credited and pending value of the table, and the amount and expiry of its intent |
| `CheckoutModel.StageMeans` | src/api/payin.ts:12-37 | Each stage as a statement about stored value |
| `CheckoutModel.ServedIsConsistent` | src/api/checkout-model.ts:56-62 | Served requests never trip the browser's paid, stage and amount check |
| `CheckoutModel.CheckoutPresentation` | src/api/checkout-model.ts:78-144 | Exactly when each title is shown; the button only beside the inviting one; remaining is the shortfall |
| `ServerProgress.NoteAnnounces` | src/reconciliation/service.ts:59-126 | Every matched sighting of a note, new or known, gaining or losing value, records that it was observed if it is new and then the one event that the received amounts before and after, the expected amount and the expiry call for |
| `ServerProgress.CoveringNoteConfirms` | src/reconciliation/service.ts:78-124 | A note that becomes creditable, at its first or at a later sighting, makes an unpaid intent paid iff it completes the expected amount, and then the last event appended is the confirmation with the new received amount |
| `EventTriggers.PartialIsAnnouncedIff` | src/reconciliation/service.ts:23-39 | docs/PAYMENT-STATES.md promises payment.partial for every change of the credited partial amount. For every sighting that changes what an intent has received, the code gives it if and only if the intent was short of its amount before and is short but not empty after; from covered to short it gives payment.reverted, from short to covered payment.confirmed, from short to empty payment.expired once the expiry has come, and otherwise nothing |
| `EventTriggers.ExpiredIsAnnouncedIff` | src/reconciliation/service.ts:35-37 | The same table promises payment.expired for every transition to EXPIRED; at a sighting the code gives it if and only if the intent was not paid before, and payment.reverted alone otherwise |
| `EventTriggers.LossIsReached` | src/reconciliation/service.ts:23-39 | Every case of these two is reached by a run, for any expected amount, any number of notes credited and any time at which the last of them is lost: statuses before and after, and the only event, if there is one |
| `EventTriggers.PaidFallsToPartial` | src/reconciliation/service.ts:30 | A run takes an intent from paid to PARTIAL, and the only event of that step is payment.reverted |
| `EventTriggers.PartialFallsToOpen` | src/reconciliation/service.ts:26-39 | A run takes an intent from PARTIAL back to OPEN, and the outbox stays as it was |
| `EventTriggers.PaidFallsToExpired` | src/reconciliation/service.ts:30 | A run takes an intent from paid to EXPIRED, and the only event of that step is payment.reverted |
| `ServerProgress.CreditIsReceived` | src/reconciliation/projection.ts:56-64 | Every sighting of a note, first or later, moves the received and the pending amount of every intent by what the note is worth to it now in place of what it was worth before |
| `SightingFacts.MatchedIff` | src/reconciliation/service.ts:47-57 | A note is MATCHED to an intent exactly if it names its reference and has its chain and token, CONFLICT if it names one of another chain or token, UNMATCHED if it names none |
| `SightingFacts.ReconciledIff` | src/reconciliation/service.ts:44-66 | A sighting is refused exactly if its id is stored with another identity, or is new while another note is stored at its place on chain |
| `SightingFacts.SightingIsStored` | src/reconciliation/service.ts:58-92 | What every sighting leaves in the table: the note as reported, the kept proof status of a credited note that was spent, the times of first and last sighting and of first eligibility; and no other row changes |
| `SightingFacts.RevisionCounts` | src/reconciliation/projection.ts:68-78 | A sighting that changes a projection gives it the next revision and this time; otherwise, and for other intents, nothing moves |
| `SightingFacts.PayloadsTell` | src/reconciliation/service.ts:128-147 | Every event of a sighting carries its time, intent, note and expected amount, and the projection before it (for the note) or after it (for the transition) |
| `SightingFacts.ClockedAtRebuild` | src/reconciliation/service.ts:94-126 | Time alone expires an empty open request, with exactly one payment.expired without a note, reopens an empty one before its expiry in silence, and does nothing else |
| `SightingFacts.RefreshClocks` | src/reconciliation/service.ts:94-104 | A refresh of any listing does that to every listed request and leaves the others alone |
| `SystemSteps.ReconcilePosts` | src/db/database.ts:458-477 | A sighting only appends to the outbox, and each new row is due at once without attempts |
| `ServerProgress.ConfirmationFulfils` | src/examples/merchant.ts:72-91 | The first arrival of a PAID confirmation fulfils a linked, unfulfilled order, whatever came before, and leaves a fulfilled one alone |
| `FulfilmentProgress.ConfirmationCanArrive` | src/events/webhook.ts:102-164 | From every reachable state a PAID confirmation that the shop has not received, of a linked order never fulfilled, has a continuation that fulfils the order: whatever became of its row (the operator replays it if it was dead-lettered), of the running pass and of the other webhooks |
| `FulfilmentProgress.PaymentCanFulfil` | src/runtime.ts:98-107 | From every reachable state with a linked order never fulfilled, the scan that sees a note which covers its unpaid intent in time has a continuation that fulfils the order |
| `FulfilmentProgress.TimelyNotePaysInTime` | src/reconciliation/projection.ts:21-48 | A covering note pays in time if it and what is credited already are stamped at or before the expiry |
| `FulfilmentProgress.DueRowIsPosted` | src/db/database.ts:479-491 | A due outbox row is posted after finitely many passes, even if every row before it fails |
| `EndToEnd.FulfilledImpliesPaid` | src/examples/merchant.ts:61-114 | An order that was ever fulfilled, also one in review since, was fulfilled once, and some earlier committed server state had its intent PAID, with credited value covering the price and a crossing settlement stamped in time |
| `EndToEnd.FulfilledAtMostOnce` | src/examples/merchant.ts:86-91 | Under repeated, reordered and crash-repeated delivery at most one step of a run fulfils an order |
| `EndToEnd.EventOrigin` | src/reconciliation/service.ts:118-124 | Every transition event was true of an earlier committed state |
| `EndToEnd.RunForward` | src/db/database.ts:479-527 | Intents are immutable, the outbox only grows, delivered rows are final, orders keep price and intent |
| `EndToEnd.DeliveryIsAccountable` | src/events/webhook.ts:113-164 | With replays and crashes at any point: rows are pending, delivered or dead-lettered; pending rows have an attempt left, dead-lettered ones none; a delivered event is durably recorded by the merchant |
| `EndToEnd.SentWebhooksAreAccepted` | src/examples/merchant.ts:61-79 | A sent webhook is refused only while its order is not linked yet |
| `SystemRuns.StepKeeps` | src/events/webhook.ts:102-164 | Every step of server, shop, delivery and network keeps the system invariant |
| `SystemRuns.LinkSucceeds` | src/examples/merchant.ts:167-177 | Linking never throws and never moves an order to another intent |
| `SystemRuns.AcceptedIffLinked` | src/examples/merchant.ts:61-86 | No payload conflict, amount mismatch or inconsistent confirmation can occur for events of the outbox |
| `DeliveryModel.BackoffGrowsToCap` | src/events/webhook.ts:149-153 | Retry delays do not decrease, are at least a second, and reach but never exceed the cap |
| `DeliveryFacts.PassTakesTheFirst` | src/db/database.ts:479-499 | A pass takes the undelivered rows whose time has come, in order of occurrence and table, at most twenty-five, and none later than one it leaves |
| `DeliveryFacts.SettledAttempt` | src/events/webhook.ts:140-161 | One attempt counts once: delivered now, due again after the doubled base up to the cap in whole seconds rounded up, or given up now with the last attempt; no other row changes |
| `DeliveryFacts.PassSettles` | src/events/webhook.ts:113-164 | An uninterrupted pass does that to each row it took, with its own answer, and to no other |
| `DeliveryFacts.ReplayRevives` | src/db/database.ts:642-653 | A replay makes a row that was given up pending, without attempts and due now, and touches nothing else |
| `DeliveryModel.WebhookDeliveryService.DeliverPending` | src/events/webhook.ts:113-164 | One uninterrupted pass over the due rows; the counts of attempts, of successes and of rows given up |
| `DeliveryModel.WebhookDeliveryService.SettleRecord` | src/events/webhook.ts:140-161 | Delivered, failed with backoff, or dead-lettered at the last attempt |
| `MerchantModel.MerchantStore.ReserveOrder` | src/examples/merchant.ts:45-53 | The first reservation fixes price and expiry |
| `MerchantModel.MerchantStore.LinkOrder` | src/examples/merchant.ts:54-60 | Sets the intent under the unique index, or throws and changes nothing |
| `MerchantModel.MerchantStore.AcceptEvent` | src/examples/merchant.ts:61-114 | Receipt and order change commit together; duplicates, conflicts and refusals change nothing |
| `ArrivalFacts.ArrivalAnswers` | src/examples/merchant.ts:61-114 | In every reachable state: the first arrival of an event of a linked order fulfils it (PAID, once), puts it into review (PAID_LATE unless fulfilled, any reversal), closes it (expiry while it waits) or leaves it alone, keeps price, expiry and intent, and is recorded; any other arrival changes nothing |
| `ArrivalFacts.AcceptAnswers` | src/examples/merchant.ts:61-114 | The answer to any event: duplicate, altered payload, no order of that price, inconsistent confirmation, or accepted with that effect |
| `ArrivalFacts.ReservedOrder` | src/examples/merchant.ts:45-53 | Price and expiry of a new order, and that a second reservation changes nothing |
| `ArrivalFacts.LinkedOrder` | src/examples/merchant.ts:54-60 | Linking gives the order the intent and the intent to that order alone, or fails exactly if it is another's |
| `IdempotentCreation.OneIntentPerKey` | src/intents/service.ts:69-167 | For any interleaving of calls: successful calls with one key return one intent, for one fingerprint, and exactly one of them as created |
| `IdempotentCreation.StoredKeyDecides` | src/intents/service.ts:77-153 | Once a key is stored, every call that ends with it, even one begun before, leaves the tables alone: it replays the stored intent if its fingerprint is the stored one and is an idempotency conflict otherwise |
| `IdempotentCreation.BegunCall` | src/intents/service.ts:69-110 | How a call begins under a stored and under a fresh key, with valid and with invalid input; nothing is written yet |
| `IdempotentCreation.KeyIsForever` | src/intents/service.ts:144-164 | A stored key keeps its fingerprint and its intent record forever |
| `SightingFacts.CreatedIff` | src/intents/service.ts:95-167 | A fresh key creates an intent exactly for a positive amount that expires later, if the drawn id and reference are unused; otherwise it names the reason and changes nothing |
| `SightingFacts.CreatedIntent` | src/intents/service.ts:112-165 | The new intent has the requested amount and expiry, the drawn reference, the configured chain and token, and an open projection without value; the key keeps the fingerprint |
| `SightingFacts.NotesFindTheirIntent` | src/intents/service.ts:126-140 | A note with the drawn reference is matched to the new intent if it has the configured chain and token, and otherwise is in conflict and credits nothing |
| `IdempotentCreation.ReachableOk` | src/intents/service.ts:69-167 | The invariant of interleaved calls from which these follow |
| `Quorum.MajorityIsUnique` | src/railgun/rpc-quorum.ts:149-158 | Two different keys can never both reach the quorum |
| `Quorum.QuorumHasCorrectVoter` | src/railgun/rpc-quorum.ts:149-162 | With fewer faulty providers than the quorum, the winning key came from a correct one |
| `Quorum.AgreedIff` | src/railgun/rpc-quorum.ts:155-162 | A reading agrees exactly if some key reaches the quorum, and on that key |
| `Quorum.ConsensusValue` | src/railgun/rpc-quorum.ts:138-166 | Grouping and sorting by size compute the first agreed value over the attempts |
| `Quorum.FirstAgreedIff` | src/railgun/rpc-quorum.ts:143-165 | What the attempts agree on is the value of the first attempt that agrees on one |
| `RpcQuorumModel.MajorityIff` | src/railgun/rpc-quorum.ts:71 | The quorum is the least number that is more than half of the providers |
| `RpcQuorumModel.FinalizedRestsOnCorrectProviders` | src/railgun/rpc-quorum.ts:74-119 | With fewer faulty providers than a majority, a note is labelled FINALIZED only if correct providers said so in the readings made: a successful receipt, whose block the note is given; a height at or above that block (or the required confirmations); and, asked for that block, one with the time the note is given |
| `RpcQuorumModel.LabelMeans` | src/railgun/scanner.ts:149-244 | Exactly when a note is labelled REVERTED, FINALIZED, CONFIRMED or OBSERVED, from the agreed receipt and heights and what was recorded, and which block and time it is given |
| `RpcQuorumModel.ContextMeans` | src/railgun/rpc-quorum.ts:74-91 | Which heights make a context, in both modes |
| `RpcQuorumModel.LabelNote` | src/railgun/scanner.ts:149-224 | Status, block number and time of a note, from the wallet or for a recheck, come out of the readings of context, receipt and block as the label that the theorem above is about; no label exactly if one of them throws |
| `RpcQuorumModel.ReadContext` | src/railgun/rpc-quorum.ts:74-91 | The chain context is the one and only context that the readings determine, or the call throws |
| `RpcQuorumModel.HeightOfReading` | src/railgun/rpc-quorum.ts:178-193 | The scan finds the least height whose window holds a quorum, or there is none |
| `RpcQuorumModel.ConsensusHeight` | src/railgun/rpc-quorum.ts:168-197 | The least height, whose window holds a quorum, of the first reading that has one; none if no reading has |
| `RpcQuorumModel.HeightIffSomeInterval` | src/railgun/rpc-quorum.ts:186-193 | A reading has a height iff some interval of the permitted width, wherever it starts, holds a quorum of heights |
| `RpcQuorumModel.HeightIgnoresOrder` | src/railgun/rpc-quorum.ts:178-193 | Readings with the same answers, whichever provider gave which, have the same height or both none |
| `RpcQuorumModel.HeightIsDetermined` | src/railgun/rpc-quorum.ts:168-197 | The outcome over all attempts is one and the same however the answers of each attempt are distributed among the providers |
| `ReceiptQuorum.SelectReceiptQuorum` | tools/ppops-payer/src/railgun/rpc-quorum.ts:181-212 | Grouping admissible receipts computes the agreed outcome |
| `ReceiptQuorum.SelectedReceiptIsVouchedFor` | tools/ppops-payer/src/railgun/rpc-quorum.ts:13-14 | A selected outcome has at least two votes and a majority, one of them correct if few enough providers are faulty |
| `ReceiptQuorum.SelectedIff` | tools/ppops-payer/src/railgun/rpc-quorum.ts:181-212 | An outcome is selected if and only if at least two providers, and more than half of them, report it in a receipt for this transaction |
| `Usdc.FormatThenParse` | src/api/checkout-model.ts:66-76 | usdcAtomic(formatAtomic(v, 6)) = v for every canonical positive amount of any length |
| `Usdc.FormattedAmount` | src/api/checkout-model.ts:66-76 | A canonical amount is printed without leading zeros, with two to six decimals and no zero at the end beyond the second, and is worth as much in millionths |
| `Usdc.RefusedIff` | src/client.ts:126-135 | What is not a decimal number with at most six decimals is refused as such, and zero as not positive |
| `Usdc.ParsedExactly` | src/client.ts:126-135 | Parsing accepts exactly the well-formed texts with a digit other than zero, and the result is exact and canonical |

## Left out

- Wallet SDK, proof generation, gas and fee calculation, Waku transport: foreign code; their results are arbitrary inputs.
- Chain reorganisations in the payer's ledger: the ledger only grows; the server side does model lost receipts.
- Honesty of the wallet's lookup by nullifiers is assumed: it names a successful transaction that spent them all.
- Signatures, HMAC and SHA-256: fingerprints and dedupe keys are injective, and only events of the outbox can arrive as webhooks.
- File access, fsync, rename and permissions: a journal write is one atomic step, as is a SQLite transaction.
- The runtime lock and its stale-lock handling: one command at a time is an assumption.
- Timers, timeouts and pauses between quorum attempts: no claim says when something happens, only what may.
- Columns no decision reads: railgunTxid, raw PPOI statuses (only whether one is valid), last_error, checkout path, descriptor text.
- Foreign keys and the remaining input checks of intents (blank or long references, uint256 and safe-integer bounds, key format).
- Classification of Broadcaster error texts into codes: an answer arrives classified.
- Authenticity and field checks of payment requests other than the payable state; the refresh of the request during preparation.
- The chain-ID check and its `chainVerified` flag, and a majority of providers agreeing on an undefined value.
- The chaining of passes through `deliveryTail`: passes do not overlap, which is what the chain achieves.
- Order of intents created in the same second in a listing: the listing is a parameter.
- A rejecting operation inside the worker pool: the model's operation always succeeds.
- HTTP routes, pages, command-line parsing, health, doctors, backups, scripts.
- The claims the code does not make: REVERTED is not final, `payment.expired` may repeat, PAID to PAID_LATE is silent, a refresh covers at most 100,000 intents.
- EventTriggers.PartialIsAnnouncedIff: docs/PAYMENT-STATES.md and the code disagree on `payment.partial` (from paid, and down to nothing) and on `payment.expired` (from paid); the model follows the code.
- JournalSize.ReadableIsBelowCapacity: the size formula takes every RAILGUN address as 127 characters long; other reasons for which a read can fail (owner, mode, damaged JSON) are not modelled.
- PayerTheorems.WriteFailsIff: the safe-integer bounds that the schema puts on clock, nonce and block number are not modelled, nor a failing disk.
- RecheckFacts.ScanLooksUp: for candidates of distinct ids that carry the stored identity, as otherwise the scan throws midway, and for providers that leave the identity of a note alone.
- API clients other than the shop are assumed never to use the idempotency key of an order.
- Which status, block number and time a scanned candidate carries is free in the server model; RpcQuorumModel.LabelNote says how they come about.
- PayerSteps.PlanIsSound: the fee amount is an input bounded by the limit; that it is the product of rate and gas is left to the SDK.
- ScanFacts.BatchOrderIsIrrelevant: revisions and events may differ between orders; candidates are assumed to carry the stored identity, as otherwise the scan throws midway.
- ReplayFacts.ReplayIsQuiet: a note stored before its intent existed is excluded; it is matched on the next scan and then without `settlement.observed`.

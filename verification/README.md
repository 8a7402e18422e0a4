# Safebox Web: verified models

A Dafny model of the parts of Safebox Web that decide over money, evidence and
access, with proofs of what they promise. `dafny verify dfyconfig.toml` checks
all of it. A source cell names the file and lines a member models; all modules
are one file each.

**Provider payments.** A Lightning payment becomes one ecash delivery through a
status machine in the database (`PaymentRows`, `PaymentMachine`). A step is one
committed statement, or the start or the return of one call to a mint, relay or
Acorn; a call may return, raise or never report, and its late result is a step
like any other. Any number of workers, zap callbacks, restarts and operators are
interleaved. `PaymentSafety` and `PaymentSteps` keep an invariant over every run.
Legacy recovery selects rows and later writes them without comparing:
`LegacyRecovery` adds it to the machine in two steps, says exactly when a write
is safe, and proves that the worker's process lock makes it so.
`PaymentTheorems` draws the results over runs with such recoveries, and
`PaymentLimits` shows three things that hold only because of the lock.
`PaymentEffects` says what each step leaves in the columns, and what the
histories that the theorems speak of record, without the functions that compute it.
`PaymentDatabase` has the tables and the statements on them; `PaymentWorker`,
`PaymentStages` and `ZapCallback` are the code itself, statement by statement with
others in between, each stage proved to be a run of the machine.
`SettlementQueue` and `MintDiscovery` are the polling queue and the cooldown of
mints that fail, `DiscoveryRun` is that stage, and `MintCooldowns` says how long a
persisted cooldown lasts.

**Core Record evaluation.** Signed notices point at parents (`NoticeGraph`).
`NoticeFates` says what can become of a notice and proves the evaluator's walk
against that. `CoreEvents` is validation and the order of the evidence,
`CoreRecord` the report, `CoreRecordEvaluator` the loops that build it, and
`CoreRecordTheorems` what the report guarantees and `CoreRecordMeaning` what each
part of it says about the supplied events.

**Leases.** Five background jobs share one protocol, a row per key with a token,
a worker and heartbeats (`Leases` and `JobTable`, with the other columns as a type
parameter that `BackgroundJobs` fills in). `ClearRequests` layers "accept at most
one transfer per request" on it, and `RequestMonitor` is the monitor's own code.

**Scanning and discovery.** `Gtin` has the check digit and UPC-E, `Gs1Elements`
the two notations, `Gs1Scan` and `Gs1Acquire` the product, `Gs1Meaning` the
rules for fields and codes spelled out, `Gs1Readings` what the order in which a
code is tried guarantees, `RelayPaging` the walk
over a relay's stored events, with the relay answering as NIP-01 says under
"Communication between clients and relays".

**NFC cards.** `NfcPolicy`, `NfcTheorems` and `NfcCardTable` are the card policy,
`NfcChallenges` the login challenges, `Base64Url` the text in QR codes and digest references (RFC
4648 sections 5 and 3.5).

**Clear balances.** `ClearBalance` is what each balance and receipt contributes to
which row, `ClearTotals` the same in their own fields, `ClearGrouping` the loops,
and `ClearSummary` lists and counts the rows. `Prelude` and `Ordering` are shared vocabulary.

Where the code does less than its description or an obvious stronger statement
suggests, the model follows the code and says exactly what holds. Six such
places: the lease protects a Clear acceptance only if its owner's heartbeat stays
fresh while the acceptance is under way (`ActionIsSafeIff`); legacy recovery is safe only when no row it selected was settled before it
writes (`WriteIsSafeIff`); the attempt counter is exact only when no claim was made
from an older candidate (`DeliveryBudget`); adding an invalid event can change a
publisher's position (`InvalidEventsLeaveNoticesAlone`); a getter and a claim can
disagree for a worker named "" (`ShownAgreesWithClaim`); and the count of pending
balances reads keysets differently from the grouping (`KeysAgreeIff`).

## Model

| member | source | states |
|---|---|---|
| PaymentTheorems.AtMostOncePublication | app/provider_payments.py:906-1029 | In every run of any number of workers, callbacks, restarts, operators and legacy recoveries, each selecting and later writing, whose writes find none of their rows settled: once a send succeeded or failed other than retryably no further send ever starts; a further send starts only if the previous one reported a retryable failure, so none ever starts after a send that never reports |
| LegacyRecovery.WriteIsSafeIff | app/provider_payments.py:338-352 | A recovery's write of the rows it selected earlier keeps the machine's invariant if and only if none of them was settled in between |
| LegacyRecovery.PlayIsGood | app/provider_payments.py:333-354 | In every run whose recovery writes meet that condition the invariant holds and no payment's past is undone |
| LegacyRecovery.OutsidersLeaveLegacy | app/service_acorn_worker.py:276 | What the process lock does not stop - enqueueing, zap callbacks, operators, crashes - neither touches a legacy row nor makes one |
| LegacyRecovery.LockedIsUndisturbed | app/service_acorn_worker.py:123-148 | Under the process lock every recovery write meets the condition |
| LegacyRecovery.LockedIsAtomic | app/service_acorn_worker.py:123-148 | Under the lock selecting, and writing after whatever others did, ends where recovering in one step would |
| PaymentTheorems.LockedRunsAreReachable | app/service_acorn_worker.py:123-148 | So every run under the lock, cut anywhere, is one that these theorems speak about |
| PaymentTheorems.SettledIsNeverResurrected | app/provider_payments.py:333-354 | In those runs a payment that was ever SETTLED stays in a later status or FAILED, never carries the legacy timeout text, so that no recovery selects it, and stays FAILED once FAILED |
| PaymentTheorems.SettledIsLeftAlone | app/provider_payments.py:716-880 | A payment that was ever SETTLED is never polled or minted again: in every run in which no two actors look at one payment at once, nobody has a settled payment in hand for either |
| PaymentTheorems.LockedWorkerLeavesSettledAlone | app/provider_payments.py:716-880 | Under the process lock it is so in every run |
| PaymentLimits.UnlockedWorkersLookAgain | app/provider_payments.py:716-880 | Without it a run exists in which a worker has a settled payment in hand for a poll |
| PaymentTheorems.LateAnswersAreDiscarded | app/provider_payments.py:412-444 | Whatever else runs, an answer to a quote, a poll or an issuance begun before the payment settled changes no row |
| PaymentTheorems.NothingSelectsSettled | app/provider_payments.py:664-827 | In those statuses no selection for a quote, a settlement poll or issuance takes the row |
| PaymentTheorems.QuotesAreWrittenOnce | app/provider_payments.py:534-594 | At most one quote is ever stored for a payment, by callback or worker; a stored quote and invoice never change; both are set in every status after creation other than FAILED; handle and amount never change |
| PaymentTheorems.QuotesAndRequestsAreOwnedOnce | app/models.py:142-145 | Over every run no two payments share a mint quote and no two share a signed zap request |
| PaymentTheorems.ReceiptsFollowDelivery | app/provider_payments.py:1032-1091 | At most one receipt publication per payment, only after a successful send; a DELIVERED payment with a zap row has a recorded receipt id |
| PaymentTheorems.DeliveryBudget | app/provider_payments.py:906-916 | Recorded attempts never exceed max(1, allowed); they equal the claims made if and only if no claim was made from a candidate read before another claim, and then sends and scheduled delay are within the configured budget |
| PaymentTheorems.SingletonBudget | app/provider_payments.py:906-1002 | With one delivery at a time the attempt counter is exact, so sends and summed delays are within budget in every run |
| PaymentTheorems.LockedBudget | app/provider_payments.py:906-1002 | So they are under the process lock, which admits one worker that does one thing at a time |
| PaymentTheorems.OneWorkerIsEnough | app/provider_payments.py:651-1093 | A worker that goes through its stages one after the other never delivers two payments at once and never has one payment in hand twice |
| PaymentTheorems.DelayLinear | app/provider_payments.py:961-979 | N retry delays together are at most N times the maximum |
| PaymentTheorems.DelayGeometric | app/provider_payments.py:961-979 | N retry delays together are at most base * (2^N - 1) |
| PaymentTheorems.DelayMonotone | app/provider_payments.py:961-979 | More retries never schedule less delay in total |
| PaymentTheorems.LegacyRecoveryHappensOnce | app/provider_payments.py:333-354 | Once one recovery has written, no run ever produces another row for a recovery to select, whatever appeared between its selection and its write |
| PaymentSteps.NextIsGood | app/provider_payments.py:651-1093 | Each step of any actor keeps the invariant of every payment and only extends every history |
| PaymentSteps.RunIsGood | app/provider_payments.py:651-1093 | So does every run, whatever is interleaved |
| PaymentSafety.Touch | app/provider_payments.py:412-444 | A change of one payment's row, zap, history and one actor keeps the whole invariant if it keeps that payment's and those of its actors |
| PaymentLimits.UnlockedWorkersOvershoot | app/provider_payments.py:906-916 | Without the process lock: with two sends allowed, any number of sends can be started while delivery_attempts never passes one |
| PaymentLimits.AnyWriteSendsAgain | app/provider_payments.py:338-352 | A recovery's write of a payment, whatever became of its earlier sends, allows a run in which it is sent again |
| PaymentLimits.StaleRecoveryPublishesTwice | app/provider_payments.py:338-352 | So two recoveries that overlap publish one payment twice while nothing was reported: the lock is needed |
| PaymentRows.TextsAreNotLegacy | app/provider_payments.py:974-1027 | No error text the current code writes, clipped or not, equals the legacy timeout text |
| PaymentEffects.EnqueueEffect | app/provider_payments.py:115-151 | A new payment has the caller's id, handle and mint, the amount asked for in whole satoshis rounded down, and nothing else yet; a taken id or request changes nothing |
| PaymentEffects.PaymentsWereAskedFor | app/provider_payments.py:115-151 | Over every run each payment was there at the start or is for the id, handle, mint and amount of a call that enqueued it |
| PaymentEffects.SelectEffect | app/provider_payments.py:236-304 | A selection changes no table and holds the row as read, which is in the status of its stage and due |
| PaymentEffects.ClaimEffect | app/provider_payments.py:447-471 | A claim moves exactly its row, only from the status of its queue; a delivery writes one more than the attempts of the row read earlier |
| PaymentEffects.QuoteEffect | app/provider_payments.py:564-594 | A quote nobody else has makes an invoice to be checked at once; a taken one, or a failure, fails the payment; neither changes what was asked for |
| PaymentEffects.PollEffect | app/provider_payments.py:720-806 | Paid moves the payment on; a quote that is gone fails it; unpaid keeps it, as unconfirmed from the 60th check on or once it was; a check that could not be made waits; each counts one attempt if a request was made |
| PaymentEffects.MintEffect | app/provider_payments.py:846-877 | Minted settles the payment, due at once; a quote that is gone fails it; anything else is tried again in five seconds; each counts one attempt |
| PaymentEffects.DeliveryEffect | app/provider_payments.py:938-1027 | Only from DELIVERING: success records the event and goes on to the receipt if there is a zap row; a retryable failure goes back to SETTLED while sends are left; anything else needs review |
| PaymentEffects.RetryDelayDoubles | app/provider_payments.py:961-967 | The first retry waits the base delay, each further one twice as long, up to the maximum |
| PaymentEffects.ReceiptNoted | app/provider_payments.py:1053-1083 | A receipt's id, or the failure to publish it, goes to this payment's zap row alone |
| PaymentEffects.ReceiptEffect | app/provider_payments.py:1037-1090 | Without a zap the payment is DELIVERED at once; with one it becomes DELIVERED or RECEIPT_FAILED as its publication went |
| PaymentEffects.QuarantineEffect | app/provider_payments.py:357-395 | Exactly the claims last touched before the cutoff are moved, each to the status that its source has |
| PaymentEffects.RecoveryEffect | app/provider_payments.py:333-354 | Exactly the FAILED rows with the former timeout's text, a quote and an invoice are polled again at once, as unconfirmed |
| PaymentEffects.RecoveryMoves | app/provider_payments.py:333-354 | In two statements: those rows are selected, and whatever has become of them is written |
| PaymentEffects.CloseEffect | app/operator_payments.py:59-97 | An operator closes a DELIVERY_FAILED payment without an event, unchanged since it was inspected, of the named handle and amount, and no other |
| PaymentEffects.PersistEffect | app/provider_payments.py:809-822 | A persisted cooldown postpones the unsettled payments of its mint to the deadline or leaves them later, and changes nothing else |
| PaymentEffects.ClaimIsCounted | app/provider_payments.py:906-916 | A delivery claim that hits is counted, and as stale if another came after the row was read |
| PaymentEffects.SendIsRecorded | app/provider_payments.py:921-961 | A send is recorded as it starts, and its outcome when it is reported |
| PaymentEffects.SettlingIsRecorded | app/provider_payments.py:846-877 | A payment counts as settled with the issuance that moves it to SETTLED |
| PaymentEffects.QuoteIsCounted | app/provider_payments.py:564-594 | A quote is counted with the write that stores it |
| PaymentEffects.PublicationIsCounted | app/provider_payments.py:1053-1062 | A publication is counted as it starts, for a payment with a zap row |
| PaymentEffects.RetryIsRecorded | app/provider_payments.py:961-979 | The delay counted is that of each retry scheduled |
| PaymentDatabase.Tables.Transition | app/provider_payments.py:412-444 | The compare-and-swap changes exactly the one row, and only in an expected status; it returns the row it wrote, nothing when it missed, an error for no expected status |
| PaymentDatabase.Tables.QuarantineSource | app/provider_payments.py:386-393 | One conditional update moves exactly the abandoned rows of one source status and counts them |
| PaymentDatabase.Tables.Quarantine | app/provider_payments.py:357-395 | All three updates in sequence equal quarantining each row once, with a count per source |
| PaymentDatabase.QuarantinedOneMore | app/provider_payments.py:386-394 | Quarantine targets are not sources, so a later update sees its rows untouched |
| PaymentDatabase.Tables.ReconcileLegacy | app/provider_payments.py:333-354 | Whatever others write in between, exactly the rows that were legacy timeouts at the selection are written by primary key, and counted |
| PaymentDatabase.Tables.Close | app/operator_payments.py:59-97 | Whatever is written between inspection and update: exactly the inspected DELIVERY_FAILED row is closed, keeping its error, with one audit entry; in every other outcome neither the audit log nor this payment is touched |
| PaymentWorker.Worker.SelectCandidate | app/provider_payments.py:906-908 | Selecting the next due SETTLED row is the machine's selection step; nothing changes when there is none |
| PaymentWorker.Worker.SwapToDelivering | app/provider_payments.py:909-916 | The claim hits exactly when the row is still SETTLED and then writes the attempt count of the row selected earlier |
| PaymentWorker.Worker.ReadBack | app/provider_payments.py:434-444 | The row read again after the commit still carries the attempt this worker wrote, whatever others did to it |
| PaymentWorker.Worker.Earned | app/provider_payments.py:938-1027 | The branches on success, retryable failure within or beyond the allowance and any other failure pass exactly the specified status, error, next check and delay to the update |
| PaymentWorker.Worker.CallSend | app/provider_payments.py:921-937 | The claimed row's send is started once |
| PaymentWorker.Worker.SendReports | app/provider_payments.py:928-961 | A reported outcome is the outcome of the send this worker started |
| PaymentWorker.Worker.RecordDelivery | app/provider_payments.py:938-1029 | What the outcome earned is written only while the row is still DELIVERING, as the machine's step says |
| PaymentWorker.Worker.DeliverOnce | app/provider_payments.py:906-1030 | The whole delivery stage, with others acting between any two statements, is a run of the machine: select, claim, and if the claim hit read back, send once and record |
| PaymentStages.ClaimStage | app/provider_payments.py:447-471 | Claiming under competition is a run of the machine with at most one claim, of a row still in the status asked for; none only when no such row is due |
| PaymentStages.RecordQuote | app/provider_payments.py:687-714 | The quote, or the failure, is written only while the row still waits for this quote |
| PaymentStages.QuoteStage | app/provider_payments.py:664-715 | The quote stage is a run of the machine: claim, ask the mint once, record the answer |
| PaymentStages.RecordIssuance | app/provider_payments.py:846-877 | Minted, gone and unpaid each write their status, error, attempts and next check, only from the status selected |
| PaymentStages.IssuanceStage | app/provider_payments.py:826-904 | The issuance stage is a run of the machine; a call that never reports leaves the row alone |
| PaymentStages.BeginPublication | app/provider_payments.py:1037-1052 | Without a zap row the payment becomes DELIVERED; with one a publication is started |
| PaymentStages.NoteReceipt | app/provider_payments.py:1053-1083 | The receipt id, or the failure, is noted in the zap row before the payment moves on |
| PaymentStages.EndReceipt | app/provider_payments.py:1062-1090 | The payment becomes DELIVERED or RECEIPT_FAILED, only if still RECEIPT_PUBLISHING |
| PaymentStages.ReceiptStage | app/provider_payments.py:1032-1091 | The receipt stage is a run of the machine: claim, publish once, note the receipt, then finish |
| ZapCallback.FindPayment | app/provider_payments.py:181-196 | Finds a payment that owns the request, or none does |
| ZapCallback.EnqueuePayment | app/provider_payments.py:115-151 | Row and zap are inserted together exactly when neither the payment id nor the request is taken; the new payment is for the caller's handle and mint, and for the whole satoshis in the amount asked for |
| ZapCallback.StoreAnswer | app/provider_payments.py:564-594 | The callback's quote is stored only while the row still waits for it; every other outcome is an error for the caller |
| ZapCallback.CreateZapInvoice | app/provider_payments.py:534-594 | A payment with an invoice is returned unchanged; otherwise the mint is asked at most once, as a run of the machine |
| ZapCallback.WaitForInvoice | app/provider_payments.py:206-233 | A waiting callback does nothing itself, and ends with the invoice in one of the statuses that serve it, with a failure, or with the time up |
| ZapCallback.ServableMeans | app/provider_payments.py:218-227 | The statuses in which a waiting callback takes the invoice: all but six |
| ZapCallback.HandleZapRequest | app/zap_handler.py:25-81 | A refused request changes nothing; whatever competitors do, the payment answered owns the request and no other does; a payment made for the request is for the handle, mint and amount asked for, in satoshis rounded down; a request that already owns a payment gets its invoice, waiting if need be, without any step of this callback |
| SettlementQueue.NextPayment | app/provider_payments.py:236-258 | A due row of the status that no other due row precedes, or none is due |
| SettlementQueue.DueSettlements | app/provider_payments.py:261-304 | A batch in queue order, of the full size allowed, that leaves out no due invoice preceding a member |
| SettlementQueue.BatchIsInOrder | app/provider_payments.py:261-304 | The order of a batch: first checks first, then rows without a date, then by date, and the older row among equals |
| SettlementQueue.DueMeans | app/provider_payments.py:243-248 | A row is due without a date or once its date is reached, and an invoice while it is unsettled |
| SettlementQueue.FirstChecksComeFirst | app/provider_payments.py:268-272 | While a due, never checked invoice is left out, a batch takes nobody's retry |
| MintDiscovery.DelayIsLongEnough | app/provider_payments.py:638-645 | Each transient failure waits at least min(300, 5*2^min(f-1,6)), at least Retry-After, at least 60 s on 429 |
| MintDiscovery.DelayDoubles | app/provider_payments.py:638-645 | The delay itself: five seconds, doubled by each further failure up to 300, stretched by the jitter within 300, and at least Retry-After and, on 429, a minute |
| MintDiscovery.TurnEffect | app/provider_payments.py:616-646 | A turn leaves its mint alone without a request or on an answer of another kind, forgives it on a quote's state, and postpones it on a timeout, 429 or 5xx |
| MintDiscovery.VerdictMeans | app/provider_payments.py:95-103 | An unpaid invoice is looked at again after 5, 30, 300 or 1800 seconds by its age; one that could not be asked about when its mint's cooldown ends or in 300 seconds; a request made counts as an attempt |
| MintDiscovery.CooldownIsRespected | app/provider_payments.py:616-646 | Any later request to the same mint is at least that delay after the failure was answered, and past the initial deadline |
| MintDiscovery.CooldownsOnlyGrow | app/provider_payments.py:616-646 | No turn ever brings a mint's deadline forward |
| MintDiscovery.FailuresAreTheStreak | app/provider_payments.py:629-638 | The failure counter is the number of transient failures since the last answer |
| MintDiscovery.MintStates.CoolingDelay | app/provider_payments.py:638-645 | Computes that delay from failures, jitter and reply |
| MintDiscovery.MintStates.Discover | app/provider_payments.py:616-646 | One turn: whether the mint is asked, the finding, and the mint's new state |
| MintDiscovery.MintStates.DiscoverAll | app/provider_payments.py:609-648 | Each finding is that of the state left by the turns before it |
| MintCooldowns.WaitsUnlessBroughtForward | app/provider_payments.py:809-822 | An unsettled payment postponed to a deadline stays postponed across a step if and only if the step is not the answer to an earlier selection that asks to look again sooner, nor a recovery's write |
| MintCooldowns.PersistedCooldownHolds | app/provider_payments.py:809-822 | Once a cooldown is persisted, no unsettled payment of the mint is in any due batch before the deadline, in every run in which none of those writes brings it forward; a restart changes nothing |
| MintCooldowns.CooldownHoldsUntilDeadline | app/provider_payments.py:809-822 | None does, in any run, while nobody had the payment in hand when the cooldown was persisted and selections are made before the deadline |
| DiscoveryRun.SelectBatch | app/provider_payments.py:717-719 | The batch is selected in one statement: a due batch in queue order, held as it was read, and nothing else changes |
| DiscoveryRun.Earned | app/provider_payments.py:720-800 | The branches on a finding pass exactly the specified columns to the update |
| DiscoveryRun.RecordFindings | app/provider_payments.py:720-806 | The recording loop, with others acting before each commit and each commit at its own clock, writes every finding by compare-and-swap on the status it was selected in |
| DiscoveryRun.PersistCooldowns | app/provider_payments.py:809-822 | With others acting before each update, the unsettled rows of exactly the mints that still cool when their turn comes are postponed, never brought forward |
| DiscoveryRun.AskAndRecord | app/provider_payments.py:717-822 | The stage from the selected batch on is a run of the machine: ask the mints, record each finding for the invoice it was read for, persist the cooldowns |
| CoreEvents.Validate | app/openetr_rules.py:47-70 | The findings of an event, check by check in order |
| CoreEvents.ErrorsDecideQualification | app/openetr_rules.py:47-70 | An event has no findings if and only if it qualifies; every finding is about it |
| CoreEvents.PermutedEvidence | app/openetr_rules.py:83 | Any reordering of the supplied events sorts to the same evidence |
| CoreEvents.ValidMapWins | app/openetr_rules.py:84-93 | Per id the qualifying copy that sorts last counts, and every qualifying id counts |
| CoreEvents.SameQualifyingSameValid | app/openetr_rules.py:81-93 | Which events count depends only on which qualifying events were supplied |
| NoticeGraph.RootIsUnique | app/openetr_rules.py:97-117 | No notice is rooted at two anchors |
| NoticeGraph.RootedIsClosed | app/openetr_rules.py:113-117 | Rooted notices carry the anchor's signer and are closed under taking parents, so no chain lookup can miss |
| NoticeGraph.RootedByParent | app/openetr_rules.py:97-117 | A notice is rooted at an anchor if and only if it carries the anchor's signer and its parent is the anchor or is rooted there |
| NoticeGraph.TerminalsExist | app/openetr_rules.py:126-129 | Where any notice is rooted there is a terminal |
| NoticeGraph.EveryNoticeIsReported | app/openetr_rules.py:154-159 | Every rooted notice is on the chain of some terminal |
| NoticeGraph.ChainShape | app/openetr_rules.py:155-159 | A reported chain lists each notice once, after its parent, ending in the terminal |
| NoticeGraph.OneTerminalIsLinear | app/openetr_rules.py:126-129 | A single terminal's chain lists all rooted notices once each in parent order |
| NoticeGraph.LineHasOneTerminal | app/openetr_rules.py:126-129 | Conversely notices that form one line have its end as only terminal |
| NoticeFates.EveryNoticeHasOneFate | app/openetr_rules.py:99-123 | On any parent links, cyclic or not, each notice is rooted at one anchor or has exactly one of the four faults, each characterised independently of the walk |
| NoticeFates.MoreIdsOnlyFindParents | app/openetr_rules.py:109-111 | With more supplied ids and the same qualifying events, the only change is from parent missing to parent invalid |
| NoticeFates.Walk | app/openetr_rules.py:100-117 | The path-set walk terminates and reaches exactly that verdict |
| CoreRecordEvaluator.CheckEvents | app/openetr_rules.py:84-93 | The first loop: valid events, rejections and findings |
| CoreRecordEvaluator.EventFindingsTellUnavailable | app/openetr_rules.py:132-137 | The findings name exactly the ids that could not be checked |
| CoreRecordEvaluator.FollowNotices | app/openetr_rules.py:97-123 | The second loop: roots, unresolved notices and one rejection per unrooted notice |
| CoreRecordEvaluator.Chain | app/openetr_rules.py:155-159 | The chain loop never misses a lookup and gives the anchor and the ancestors in order |
| CoreRecordEvaluator.Place | app/openetr_rules.py:131-149 | The publisher position, branch by branch |
| CoreRecordEvaluator.Describe | app/openetr_rules.py:125-165 | One candidate as the report specifies it |
| CoreRecordEvaluator.EvaluateCoreRecord | app/openetr_rules.py:73-188 | Refuses what is no digest once stripped and in lower case, or an unknown source, and nothing else; otherwise returns exactly the specified report of the sorted evidence, whose parts `CoreRecordMeaning` spells out |
| CoreRecordMeaning.StandingMeans | app/openetr_rules.py:166-176 | Each of the five standings as a condition on the sorted evidence: two anchors count, exactly one does, or none does and then something could not be checked, an anchor event was supplied, or not |
| CoreRecordMeaning.StandingOfSupplied | app/openetr_rules.py:166-176 | The same over the supplied events in any order, with the qualifying anchors among them, where a verified id tells the kind of event |
| CoreRecordMeaning.PositionMeans | app/openetr_rules.py:131-149 | Each of the six positions: two ends, a chain that leaves the evidence, a notice with an unchecked copy, no notice, or the one end's type, known to the ruleset or not |
| CoreRecordMeaning.GraphMeans | app/openetr_rules.py:94-117 | The graph has one entry per qualifying id, with the signer, kind and parent of its last qualifying copy |
| CoreRecordMeaning.TerminalMeans | app/openetr_rules.py:126-129 | A terminal is a rooted notice that no rooted notice has as its parent |
| CoreRecordMeaning.CandidatesAreAnchors | app/openetr_rules.py:126-165 | One candidate per qualifying anchor, in the order of their ids |
| CoreRecordMeaning.CandidateFindingsMean | app/openetr_rules.py:138-153 | A candidate's findings are its conflict, each chain of its publisher that leaves the evidence, and each rooted notice of an unknown type, and nothing else |
| CoreRecordMeaning.ReportMeans | app/openetr_rules.py:84-188 | The rejections are the copies that do not qualify, each with its faults, and the qualifying notices that are not rooted; the findings are those of the rejections and candidates and the three about the whole |
| CoreRecordMeaning.ErrorsAreFaults | app/openetr_rules.py:47-70 | Every fault of an event is found, in the order of the checks, and nothing else is |
| CoreRecordMeaning.TagMeans | app/openetr_rules.py:34-39 | A tag's value is the text after its name where exactly one tag has that name |
| CoreRecordTheorems.ReportIgnoresOrder | app/openetr_rules.py:81-93 | The whole report is the same for any permutation of the events |
| CoreRecordTheorems.CandidatesIgnoreCopies | app/openetr_rules.py:125-176 | Candidates and overall state are the same for any duplication of the events |
| CoreRecordTheorems.InvalidEventsLeaveNoticesAlone | app/openetr_rules.py:109-111 | Adding events that do not qualify leaves every anchor's notices, terminals and chains; the position changes if and only if there is no conflict and the added events carry every id the publisher's chains miss, or, where none was missing and all was checked, make an id of one of its notices uncheckable |
| CoreRecordTheorems.PositionMovesIff | app/openetr_rules.py:131-149 | The same for one graph and any two bodies of events, one within the other |
| CoreRecordTheorems.InvalidEventCanHideAGap | app/openetr_rules.py:110 | The first change does happen: an event that only claims a missing parent's id removes the incompleteness |
| CoreRecordTheorems.UncheckedEventHidesThePosition | app/openetr_rules.py:132-143 | So does the second: a notice of the publisher's that cannot be checked makes its position unverifiable |
| CoreRecordTheorems.OneTerminalIffOneLine | app/openetr_rules.py:126-129 | Exactly one terminal if and only if the rooted notices form one line |
| CoreRecordTheorems.OnePositionIffOneLine | app/openetr_rules.py:138-149 | A publisher's own statement is reported if and only if its notices form one line and nothing of its is missing or unchecked; it is the statement at the end of the line |
| CoreRecordTheorems.ChainsShowEverything | app/openetr_rules.py:151-164 | One chain per terminal, each linear from the anchor, together showing every notice |
| CoreRecordTheorems.EveryNoticeIsPlacedOnce | app/openetr_rules.py:99-123 | A qualifying notice is listed under exactly one anchor and not rejected, or under none and rejected exactly once with one of four codes |
| Leases.LiveOwnerKeepsLease | app/clear_acceptance.py:147-190 | While the owner's last heartbeat is never 60 s old and it writes no final status, no claim by anyone succeeds |
| Leases.ClaimEffect | app/clear_acceptance.py:120-190 | A claim starts the row afresh for 15 minutes under a new token exactly when there is none, or it is this npub's and finished, or its lease ran out, or its worker has not beaten for 60 seconds; otherwise nothing changes |
| Leases.UpdateEffect | app/clear_acceptance.py:193-210 | A write under the row's npub and token changes the columns it names and the time of change; any other changes nothing |
| Leases.OtherStepsEffect | app/worker_liveness.py:33-58 | Heartbeats, removals and the clock leave the jobs alone |
| Leases.ShownMeans | app/clear_acceptance.py:86-108 | A running job is shown as interrupted exactly when its worker has not beaten for 60 seconds or, without a named worker, its lease is over |
| Leases.HeldLeaseIsKept | app/outgoing_payment.py:221-248 | A row that is never claimable is never granted again, with or without a worker |
| Leases.TakeoverFencesOldTokens | app/clear_acceptance.py:193-210 | After a takeover every write with the older token changes nothing, at any later time |
| Leases.ClaimOutdatesOwner | app/clear_acceptance.py:120-190 | A successful claim does make the previous owner's token an older one |
| Leases.FencedForever | app/funds_finalization.py:153-170 | A token that no row carries is never carried again |
| Leases.StoppedOwnerIsReplaced | app/clear_receive.py:93-133 | A claim by the row's npub succeeds if and only if the running owner's last heartbeat is 60 s old or gone, and then resets the row |
| Leases.ShownAgreesWithClaim | app/funds_finalization.py:46-150 | The getter shows RUNNING if and only if a claim would be refused, unless the worker is named ""; then exactly when its lease and heartbeat agree |
| Leases.OtherNpubsChangeNothing | app/deposit_finalization.py:84-170 | A deposit's row is never changed by claims or writes under another npub |
| JobTable.Table.Claim | app/deposit_finalization.py:84-150 | Insert or, if the row exists or appears meanwhile, conditional update, with others writing in between: the claim step at the clock read first |
| JobTable.Table.Update | app/deposit_finalization.py:153-170 | Writes exactly the row with this key, npub and token, and says whether it did |
| JobTable.Table.Get | app/clear_acceptance.py:86-108 | Shows the row of its npub only, a stopped owner's running job as interrupted |
| JobTable.Table.Heartbeat | app/worker_liveness.py:33-48 | The worker's row is inserted or refreshed with the clock read first |
| JobTable.Table.RemoveWorker | app/worker_liveness.py:51-58 | The worker's row is deleted |
| JobTable.Table.KeepLease | app/clear_acceptance.py:225-235 | The renewal loop stops exactly with a fenced token; until then the lease runs 15 minutes from the last renewal |
| BackgroundJobs.StaysKeyedByNpub | app/outgoing_payment.py:173-248 | In the four tables with one row per npub a row's npub is always its key |
| BackgroundJobs.RefusedWhileHeld | app/funds_finalization.py:71-150 | There a claim is refused if and only if the row is running and its lease, or its owner's heartbeat, holds; otherwise it resets the row |
| BackgroundJobs.ClaimFinalization | app/funds_finalization.py:71-150 | A successful claim starts with zero counts, amounts and no error |
| BackgroundJobs.ClaimAcceptance | app/clear_acceptance.py:111-190 | A successful claim starts for the event with no amount, mint, unit or error |
| BackgroundJobs.ClaimReceiving | app/clear_receive.py:59-133 | A successful claim starts with nothing stored and no error |
| BackgroundJobs.ClaimOutgoing | app/outgoing_payment.py:173-248 | A successful claim starts with the payment's own fields and no fees, message or error |
| BackgroundJobs.ClaimDeposit | app/deposit_finalization.py:84-150 | Keyed by quote hash: a claim under another npub is refused and changes nothing itself |
| ClearRequests.PickCandidate | app/clear_request_monitor.py:109-121 | Done exactly when a receipt for this request, mint and unit is accepted; otherwise the first for them, pending or accepted, that pays at least the amount and has a 64-digit hexadecimal id, previews counting only if none is for the request; while one is received, one is chosen |
| ClearRequests.PaysIffAcceptable | app/clear_request_monitor.py:68-77 | The code's tests say just that, with mints compared up to slashes at the end and a single listed mint standing in for a missing one |
| ClearRequests.ActionEffect | app/clear_request_monitor.py:122-149 | What each action of a monitor writes: the phase or status it names, only while the lease row is its own, and where it goes on |
| ClearRequests.TakeLeaseEffect | app/clear_request_monitor.py:122-127 | Taking the lease claims the row for the receipt's event and leaves the monitor with its token |
| ClearRequests.AtMostOneAcceptance | app/clear_request_monitor.py:122-149 | However many monitors poll for one request, whoever else uses the lease and whichever owners die or fall silent, at most one matching receipt is accepted by them, given that an owner's heartbeat is fresh while its acceptance is under way and that re-reads show at least what was accepted |
| ClearRequests.ActionIsSafeIff | app/clear_acceptance.py:111-190 | The exact condition, action by action: what the protocol keeps survives if and only if the lease is not taken while an acceptance is under way and its holder does not go ahead once one has taken effect |
| ClearRequests.OrderlyRunsAcceptOnce | app/clear_request_monitor.py:122-149 | In every run whose actions meet that condition at most one matching receipt is accepted |
| ClearRequests.LiveAndShownIsOrderly | app/clear_acceptance.py:147-170 | A fresh heartbeat during the acceptance and a complete re-read make every action meet it |
| ClearRequests.TakeoverOvertakes | app/clear_acceptance.py:147-190 | Taking the lease fences every monitor at work whose acceptance is not under way |
| ClearRequests.OvertakenNeverAccepts | app/clear_acceptance.py:252-256 | A monitor overtaken before its acceptance never starts one, in any run, until it takes the lease again: its next phase is refused |
| ClearRequests.DeadOwnerIsReplaced | app/clear_acceptance.py:147-170 | There is a run meeting both conditions in which the first owner takes the lease and dies and another takes it over and accepts, once |
| ClearRequests.UnseenAcceptanceRepeats | app/clear_request_monitor.py:129-137 | The second condition is needed: there is a run with two acceptances on which every worker is live throughout and only a re-read misses one |
| ClearRequests.SilentOwnerIsOvertaken | app/clear_acceptance.py:147-170 | So is the first: there is a run with two acceptances on which every re-read shows all accepted so far and only an owner is silent for 60 seconds while its acceptance is under way |
| RequestMonitor.RequestWatcher.Enter | app/clear_acceptance.py:252-256 | A phase is entered exactly while the lease is held; otherwise the job is over |
| RequestMonitor.RequestWatcher.RunJob | app/clear_acceptance.py:213-352 | The job does what its script says, or stops at a phase it could not enter, and always ends |
| RequestMonitor.JobMeans | app/clear_acceptance.py:252-352 | Its script loads before it accepts, searches only after a receipt was not found, accepts at most once, and says COMPLETE exactly when the last call confirmed |
| RequestMonitor.RequestWatcher.Poll | app/clear_request_monitor.py:107-152 | One round: only on a receipt that is for the request and pays enough, and always on one if received, unless one is accepted; lease first, then the re-read, then the job only if it shows none accepted; a failed re-read releases the lease and goes on; over an orderly trace at most one receipt is accepted |
| Gtin.NormalizeGtin | app/gs1_discovery.py:15-22 | Accepts exactly 8, 12, 13 or 14 digits whose last, third last and so on, with three times the others, add up to a multiple of ten, and returns them with zeros in front |
| Gtin.CheckedMeans | app/gs1_discovery.py:19-21 | A code's check digit is right if and only if that sum is a multiple of ten |
| Gtin.BodyDigits | app/gs1_discovery.py:28-37 | Where each of the ten digits that a UPC-E form stands for comes from |
| Gtin.NormalizedOnOwnCheck | app/gs1_discovery.py:15-22 | A GTIN-8, -12, -13 or -14 is accepted if and only if its own check digit is right; normalising twice changes nothing |
| Gtin.PaddingKeepsCheck | app/gs1_discovery.py:18-20 | Zero padding neither makes nor breaks a check digit |
| Gtin.SingleChangeIsCaught | app/gs1.py:60-62 | Changing any one digit is always noticed |
| Gtin.SwapIsMissedIffFive | app/gs1.py:60-62 | Swapping different neighbours goes unnoticed if and only if they differ by five |
| Gtin.ShortenKeepsBody | app/gs1_discovery.py:28-37 | Every six-digit UPC-E form has a shortest form for the same code |
| Gtin.ShortestIsUnique | app/gs1_discovery.py:28-37 | Two shortest forms for one code are equal |
| Gtin.SameGtinIffSameShortest | app/gs1_discovery.py:25-38 | Two UPC-E texts give the same GTIN if and only if system, check digit and shortest form agree, so expansion is not injective |
| Gs1Elements.ParseElements | app/gs1_discovery.py:93-116 | The cursor loop terminates and reads exactly the specified fields or the specified error |
| Gs1Elements.ReadEncoded | app/gs1_discovery.py:96-116 | Fields written in any order with the required and any optional separators are read back exactly |
| Gs1Elements.ElementsIffEncoded | app/gs1_discovery.py:93-116 | An element string is accepted if and only if it was written that way, with or without an initial separator |
| Gs1Elements.ParenthesisedRoundTripIff | app/gs1_discovery.py:87-91 | Parenthesised fields are read back as written if and only if no value contains a parenthesised number |
| Gs1Scan.ParseParenthesised | app/gs1_discovery.py:87-91 | Scanning left to right gives the matches and the text between them |
| Gs1Scan.CollectFields | app/gs1_discovery.py:117-130 | The field loop with its errors in order |
| Gs1Acquire.AcquireProduct | app/gs1_discovery.py:50-133 | The tests in the order in which the code makes them |
| Gs1Acquire.CollectedIff | app/gs1_discovery.py:117-130 | Fields are accepted if and only if each is sound and none repeats; each keeps its own value |
| Gs1Acquire.ProductIff | app/gs1_discovery.py:117-133 | A field list makes a product if and only if sound, distinct and with a GTIN, and the product holds exactly those fields |
| Gs1Acquire.AllSpellingsAgree | app/gs1_discovery.py:93-133 | All orders and separators of the same distinct fields give the same product or are all refused |
| Gs1Acquire.ParenthesesAgree | app/gs1_discovery.py:87-133 | The parenthesised spelling gives the same product as the element string unless a value looks like another field |
| Gs1Readings.FieldsNeedMetadata | app/gs1_discovery.py:55-133 | A product with a lot, serial, expiry or digest comes from a link, or from a code explicitly declared an element string by the mode or the scanner's prefix |
| Gs1Readings.NeverGuessed | app/gs1_discovery.py:75-84 | Undeclared, a code is a product if and only if it is 12 to 14 digits with their own check digit right, and then nothing but its GTIN; eight digits and whatever looks like an element string are refused |
| Gs1Readings.RetailCodesAreGtins | app/gs1_discovery.py:61-68 | A retail symbology fixes the length; a code is accepted if and only if its own check digit, or that of the code its UPC-E stands for, is right |
| Gs1Readings.OneItemOneProduct | app/gs1_discovery.py:55-133 | One twelve-digit item is the same product as UPC-A, as EAN-13, typed in, selected as GTIN or as the only field of an element string |
| Gs1Readings.UpcEIsItsExpansion | app/gs1_discovery.py:25-63 | A UPC-E symbol gives the product that the code it stands for gives, or both are refused |
| Gs1Readings.ElementStringsNeedDeclaring | app/gs1_discovery.py:72-95 | An element string selected as such or prefixed by the scanner is read as its fields, to the same result; undeclared, one with a GTIN is never read as a product |
| Gs1Acquire.AcquiredGtinIsCanonical | app/gs1_discovery.py:55-133 | However a code was read, an accepted product's GTIN has 14 digits and a right check digit |
| Gs1Meaning.EncodableMeans | app/gs1_discovery.py:98-107 | The four identifiers and the values that an element string can hold for them |
| Gs1Meaning.SeparatedMeans | app/gs1_discovery.py:109-116 | Between two fields a separator is needed exactly after a lot or serial |
| Gs1Meaning.ProblemMeans | app/gs1_discovery.py:117-129 | A field is sound if and only if it is a checked 14-digit GTIN, an expiry that the calendar has, or a lot or serial of 1 to 20 permitted characters |
| Gs1Meaning.FirstFaultDecides | app/gs1_discovery.py:117-130 | The first field that is unsupported, repeated or unsound, in that order of tests, decides what is said |
| Gs1Meaning.ExpiryMeans | app/gs1_discovery.py:41-47 | An expiry is six digits of a day that its month has, leap years included, day zero standing for the month |
| Gs1Meaning.MarkedMeans | app/gs1_discovery.py:88 | An identifier in parentheses is two to four digits |
| Gs1Meaning.LeftAloneIff | app/gs1_discovery.py:75-84 | An undeclared code is left alone if and only if nothing about it looks like a GTIN or an element string |
| Gs1Meaning.OrderOfReading | app/gs1_discovery.py:57-95 | The order in which the ways of reading a code are tried, and what each demands |
| RelayPaging.ReadPage | app/gs1_discovery.py:215-228 | After a page every event is recorded as candidate or rejected, with novelty and oldest timestamp |
| RelayPaging.FullPageMovesOn | app/gs1_discovery.py:232-236 | A full page moves the frontier to its oldest event and leaves nothing later unseen |
| RelayPaging.ExhaustedIsComplete | app/gs1_discovery.py:229-231 | A short page means that everything stored was seen and no timestamp fills a page |
| RelayPaging.StuckPageIsOneBucket | app/gs1_discovery.py:233-235 | A page that cannot advance lies in one timestamp with at least `limit` events |
| RelayPaging.QueryRelay | app/gs1_discovery.py:202-239 | An exhausted walk has every stored event as candidate or rejected and no bucket fills a page; a saturated one has a bucket that does; an unavailable one got no answer to its last query; each frontier is the oldest time of the answer before and older than the one before, and every event answered is a candidate or rejected |
| RelayPaging.Discover | app/gs1_discovery.py:241-248 | Merged over relays: every event of an exhausted relay is a candidate or rejected, every candidate or rejection is some relay's, and the candidates are listed once each in the order of their ids |
| NfcTheorems.RowFollowsLog | app/nfc_cards.py:175-183 | Over every interleaving the row is a function of what was committed: the revision counts card changes and never goes back, failures are the wrong PINs since the last login or activation and stay within 0..5 |
| NfcTheorems.OnlyLatestPreparedActivates | app/nfc_cards.py:275-282 | Only the card prepared last becomes active, with no other card change since |
| NfcTheorems.LoginsUseAUsableCard | app/nfc_login.py:151-167 | Every counted login, right or wrong PIN, is with a card activated before, not replaced or revoked since and never locked since |
| NfcTheorems.ReplacedCardIsDead | app/nfc_login.py:159-165 | A replaced or revoked card is never activated or used again |
| NfcPolicy.StepKeepsInv | app/nfc_cards.py:175-183 | Each committed step keeps row and log in agreement |
| NfcPolicy.PrepareEffect | app/nfc_cards.py:219-222 | Preparing writes the card, its digest and half an hour, only if the row is still the one read, and leaves the active card alone |
| NfcPolicy.ActivateEffect | app/nfc_cards.py:275-282 | Activating needs the card prepared last, its digest, the confirmed revision, half an hour not over and the card not expired; it makes the card active until it expires and clears the rest |
| NfcPolicy.RevokeEffect | app/nfc_cards.py:286-295 | Revoking at the row's revision leaves no card and forgives no wrong PIN |
| NfcPolicy.AuthorizeEffect | app/nfc_login.py:151-167 | A login that the row admits, at the read and at the write, clears the count of wrong PINs or adds one, and writes nothing else |
| NfcTheorems.LoginIsPossible | app/nfc_login.py:151-167 | Preparing, activating and using a card is a run, so the results above speak about something |
| NfcCardTable.CardTable.PrepareCard | app/nfc_cards.py:219-222 | Prepares the card exactly if the row is still the one read, for 30 minutes |
| NfcCardTable.CardTable.ActivateCard | app/nfc_cards.py:275-282 | Activates the shown card if and only if the row read still offers it at the confirmed revision and is unchanged at the write, clearing the prepared card and the failures |
| NfcCardTable.CardTable.RevokeCards | app/nfc_cards.py:286-295 | Revokes exactly at the given revision, keeping the failure count |
| NfcCardTable.CardTable.Login | app/nfc_login.py:151-167 | True if and only if the PIN is right, the row read admits the card and it still stands at the write, whatever others did in between; a wrong PIN then adds one failure |
| NfcChallenges.OneAttemptPerChallenge | app/nfc_login.py:179-185 | Over every run a challenge is used for at most one attempt, by the browser it was bound for and with the one payload bound before |
| NfcChallenges.ChallengeEffect | app/nfc_login.py:108-185 | What each statement does to the challenges: drawn for five minutes, dropped when over, bound once and used once, for the same browser and issuer and in time |
| NfcChallenges.ChallengeTable.Open | app/nfc_login.py:108-112 | A new challenge is stored for one browser, for five minutes |
| NfcChallenges.ChallengeTable.Expire | app/nfc_login.py:52 | Removes exactly the expired challenges |
| NfcChallenges.ChallengeTable.BindPayload | app/nfc_login.py:140-146 | Binds a payload only if none was ever bound |
| NfcChallenges.ChallengeTable.UseUp | app/nfc_login.py:179-185 | Uses a challenge up only with the payload bound to it and only once |
| Base64Url.DecodeEncoded | app/nfc_qr.py:12-30 | What is encoded is decoded, for all 1 to 400 bytes |
| Base64Url.AcceptedIsEncoded | app/nfc_qr.py:18-30 | Every accepted text is the one encoding of its bytes |
| Base64Url.DecodeIsInjective | app/nfc_qr.py:18-30 | No two texts decode to the same bytes |
| Base64Url.AcceptedIffCanonical | app/nfc_qr.py:18-30 | A text is accepted if and only if it has the prefix, the alphabet, the length and no stray bits |
| Base64Url.PackThenUnpack | app/nfc_qr.py:15 | Bytes survive the conversion to sextets and back |
| Base64Url.PackedBits | app/nfc_qr.py:15 | Each group of sextets is the number its bytes make, the last filled up with zero bits |
| Base64Url.AlphabetIs | app/nfc_qr.py:22 | The sextets are written in the alphabet of RFC 4648 section 5 |
| Base64Url.UnpackThenPack | app/nfc_qr.py:25-27 | Sextets survive the conversion to bytes and back if and only if they are canonical |
| Base64Url.DigestIffCanonical | app/gs1.py:84-88 | A 43-character digest reference is accepted if and only if its last character has no stray bits, and then names 32 bytes uniquely |
| Base64Url.EveryDigestHasAReference | app/gs1.py:84-88 | Every 32-byte digest has such a reference |
| ClearGrouping.Group | app/main.py:1286-1392 | There is a row for exactly the units, mints and keysets under which something is filed, and each of its four columns is the sum of what the keysets, balances and receipts filed there say |
| ClearTotals.ConservingAccounts | app/main.py:1286-1392 | Summing contributions gives every row the totals of the inputs' own fields |
| ClearTotals.ListedIsEverything | app/main.py:1411-1418 | All rows together hold all that the inputs say, column by column |
| ClearGrouping.AddBalance | app/main.py:1323-1362 | Each row grows by the positive amounts and proof counts of the balance's keysets filed there, or by its own if it lists none |
| ClearGrouping.AddReceipt | app/main.py:1363-1392 | A pending receipt adds its amount and one receipt to one row, that of the only keyset it names or of none |
| ClearBalance.SumIgnoresOrder | app/main.py:1320-1321 | A key's total depends on the contributions, not on their order |
| ClearBalance.GroupingIgnoresOrder | app/main.py:1276-1392 | Any reordering of balances and receipts gives the same table |
| ClearSummary.ListingIsUnique | app/main.py:1411-1418 | A set of rows has only one sorted listing |
| ClearSummary.UptoMeans | app/main.py:1411-1418 | The order is by unit, then mint, then keyset, each as Python sorts text |
| ClearSummary.CountMeans | app/main.py:1396-1408 | The key by which a pending receipt is counted |
| ClearSummary.Summarise | app/main.py:1276-1419 | Every row appears once, in order, with the totals of the inputs filed there; all rows together hold exactly the positive amounts and proof counts of the balances and the amounts and number of the pending receipts; the counts are those of the receipts and rows |
| ClearSummary.SummaryIgnoresOrder | app/main.py:1393-1419 | The whole summary - listed balances, counts, pending and spendable - does not depend on the order of the input |
| ClearSummary.KeysAgreeIff | app/main.py:1366-1405 | The two ways of reading a receipt's keyset agree if and only if a list of one holds text and no other list holds exactly one name |
| ClearSummary.PendingCountIsRows | app/main.py:1396-1408 | Where they agree for all receipts, the pending balance count is the number of rows with pending transfers |
| ClearSummary.DisagreeingReceiptCountsTwice | app/main.py:1396-1408 | Any pending receipt where they disagree, with the same receipt plainly named, is one row and counts as two balances, so no weaker condition on single receipts would do |

## Left out

- Calls to Acorn, mints, relays and Blossom: each is an outcome, never its internals; clocks, jitter, random tokens and ids are parameters, new where the code relies on it.
- Signatures, SHA-256, AES-GCM, Fernet, CBOR and BOLT11: an event's check, a card's content and a payload's digest are given; the JSON that sorts the evidence is assumed to tell events apart.
- URL parsing: reading a code as a GS1 Digital Link is a parameter of `AcquireProduct`; mint and relay normalisation, IDNA and the percent decoding of links are not modelled.
- HTTP routes, templates, cookies, CSRF, throttling of login requests, file migration, currency rates, diagnostics and private messages: no property of the kind proved here.
- `update_provider_payment`, the unconditional write: nothing calls it.
- PaymentTheorems.NothingSelectsSettled: is about selections; `SettledIsLeftAlone` and `LateAnswersAreDiscarded` say what becomes of those made earlier.
- MintDiscovery.MintStates.DiscoverAll: turns are given in the order in which the per-mint locks were taken; which mints overlap, and the limit on concurrent reads, is not modelled.
- ZapCallback.HandleZapRequest: the validation of the request, and whether the service is ready, are a parameter that refuses it or not.
- CoreRecordEvaluator.EvaluateCoreRecord: lowers ASCII letters only, which decides the same, since no other letter's lower case is a hexadecimal digit; the fixed ruleset and retrieval fields of the report are left out.
- Exclusion between different kinds of job: the code checks and then claims, so it is not an invariant.
- JobTable.Table.Get: the error text shown with an interrupted job, and the deposit getter without a quote hash, which takes the newest row, are not modelled.
- ClearRequests.PickCandidate: the outgoing-payment guard that follows it is a parameter of the monitor's round; the deadline and the sleeping of the loop are not modelled.
- RequestMonitor.RequestWatcher.RunJob: cancelling a job from outside between two of its statements is a step of the state machine (`Report`), not a path of the method.
- Gs1Scan.CollectFields: matching a product against the fields of an anchor, and reading those fields from tags, are not modelled.
- RelayPaging.QueryRelay: timestamps are non-negative numbers, and whether an event is accepted as candidate is given with it.
- NfcTheorems.RowFollowsLog: is about one wallet's row; the policy rows of different wallets never meet.
- ClearGrouping.Group: amounts are whole numbers or absent; display names, availability and the conversion of other values are left out.

# Verification of the job, credit and content settlement logic

This project models, in Dafny, how the platform's parts settle a rendering job: Django opens an
external job and submits it, the content renderer renders once and delivers its callback at
least once over a lossy link, and Django turns each delivery into outputs, assets, credit
ledger rows, usage events and notices. Beside it stand the other pieces of logic with rules
worth proving: the callback client's and the intelligence client's retry loops, the
campaign-action lifecycle, the two deterministic analysis engines, the SVG text escaper and the
unique-slug search.

Run `dafny verify dfyconfig.toml` in this directory.

## How the model is built

| Module | What it holds |
|---|---|
| `Ledger`, `Usage`, `Billing` | the append-only ledger and meter as values, and the class whose methods perform the billing operations on them |
| `Outputs`, `OutputRows`, `Decimals` | merging a callback's outputs into stored rows and assets, keyed by external output key, and what each row then holds, column by column |
| `Jobs`, `Settlement` | the whole store as one value and every serialised step on it: bill, create, open, submit, retry, cancel, deliver |
| `Backend` | the same steps as an object with fields that methods update; each method is proved equal to its step |
| `Answers`, `Outcomes` | what each message is answered and what becomes of the job, the request or document, its notice and its usage event, said of the messages and rows themselves |
| `Invariants` | one inductive invariant over arbitrary runs, and what no step may undo |
| `Conservation`, `PriceRise` | what balances are made of in every run, credit conservation at fixed prices, the exact condition under which a settlement mints credits, and a run that does |
| `ExactSettlement`, `StandingCharge` | consume or release exactly once, exactly when a submission or a callback does otherwise, and what keeps a settled request as it is |
| `Stages`, `LateCompletion`, `UndoneCharge`, `StandingReservation` | concrete runs: a completion for free, a charge undone, and two reservations nobody settles |
| `Quotas`, `RetryChain` | all-or-nothing creation and the monthly quota; retries and their chain |
| `CallbackClient`, `RenderJob`, `Receipts`, `Delivery`, `EndToEnd`, `Documents`, `RenderedRun` | the renderer's side, at-least-once delivery among any other steps, both sides together, for content packs and for documents, and a run of both |
| `IntelligenceClient` | the synchronous intelligence call and its service |
| `CampaignActions`, `ActionRules` | create, patch and transition of campaign actions, and the rules status by status |
| `Bundle`, `Moments`, `MomentTable`, `Analysis` | the moment detector, its windows, thresholds and order written out, the campaign analysis and their agreement |
| `SvgText`, `SvgWords`, `Slugs` | the escaper (XML 1.0, sections 2.2, 2.4, 4.1 and 4.6) and the slug search |

Objects the program updates in place are classes here (`Billing.BillingService`,
`Backend.BackendCore`, `RenderJob.JobService`, `CampaignActions.ActionStore`,
`Slugs.SlugTable`). Each of their methods is tied to a function of the old state, and the laws
are proved about runs of those functions. Every Django transaction is one step of the store,
and so is every submission, including the write that follows its HTTP call. What the network,
the clock, the renderers and failing handlers do is a parameter: the outcome of
a submission, the time and billing period of a step, whether a handler raises and rolls back,
which attempts reach Django, which log calls raise.

Row ids are positions in the store's sequences. Amounts count ten-thousandths of a credit, the
scale of the ledger's decimal columns. No modelled step deletes a request. Formatted keys are
constructors, under two assumptions:

- Ledger keys: `PackReserve(r)` stands for the reserve key of request r, which contains the
  request's id; callers of the credit operations do not use that family of texts.
- Job keys: `For(type, entity)` stands for `<job type>:<entity id>`, also when a caller spells
  it out. The text leaves out the entity's kind
  (backend_core/apps/integrations_bridge/services.py:68-70), so entities of two kinds are taken
  never to share an id; ids are random UUIDs.

## What the proofs found

- The content pack's price is read again when a request is settled
  (backend_core/apps/content/callbacks.py:142 and 237). A release returns the price of that
  moment, so it mints credits exactly when the content pack has become dearer
  (`ExactSettlement.DeliveryMintsIffDearer` for callbacks,
  `ExactSettlement.SubmissionMintsIffDearer` for failing submissions;
  `PriceRise.RaisedPriceMints` is a run that is granted 10 credits and ends with 13). What holds
  in every run is
  `Conservation.BalanceInEveryRun`; that no run mints credits holds for runs that leave the
  prices of requested content packs alone (`Conservation.CreditsConserved`).
- A failing submission that is told settles its request as failed, one that is not leaves it
  alone. It is not told if the handler raises, which is swallowed
  (backend_core/apps/integrations_bridge/services.py:287-296), or if the audit write before it
  does (lines 253 and 263 there); `Settlement.Told` says so. In any store it leaves exactly one
  of the two rows exactly when `ExactSettlement.SubmissionLeavesOneIff` says. At creation that means told or
  not (`ExactSettlement.FailedCreationSettlesIffTold`): an untold request stays queued with its
  reservation standing, as `StandingReservation.UntoldFailureStrands` is a run of.
- A charge can be undone. Once every job of a request is over, only opening or retrying a job
  for it can disturb it (`StandingCharge.SettledRequestStands`). But a cancelled job stays
  retryable after a retry of it was completed and charged; if it is retried again and that
  submission fails and is told, the request is failed, its outputs are marked failed, and the
  release makes it free (`ExactSettlement.FailedRetryUndoesCharge`;
  `UndoneCharge.RetryUndoesCharge` is a run that charges 5 credits and gives them back).
- Cancelling a job writes no ledger row, so its reservation keeps standing
  (`ExactSettlement.CancelTidy`, the cancelled case of `ExactSettlement.ExactlyOneSettlement`, and
  the run of `StandingReservation.CancellationStrands`).
- A release is for good (`Conservation.ReleasedStaysFree`), but the job may still complete:
  after a submission that timed out, after a retry of a failed job, or after a callback such as
  `running` that reaches the success handler without ending the job
  (backend_core/apps/content/callbacks.py:113-119). Any such completion is free
  (`ExactSettlement.CompletionAfterReleaseIsFree`). `LateCompletion.LateCompletionIsFree` is a
  run in which a timed-out submission completes for nothing, and
  `ExactSettlement.RunningThenCompletedIsFree` the case of `running`, which the renderer never
  sends (`RenderJob.PayloadsAreOrderly`). `ExactSettlement.DeliveryLeavesOneIff` says, for any
  store, when a callback leaves exactly one of the two rows.
- The dispatcher's module docstring says its handlers only move the job
  (backend_core/apps/integrations_bridge/callbacks.py:3-9); the code delegates to the content
  and report handlers, which is what the model does.
- The docstring of the retry says it starts from a terminal state
  (backend_core/apps/integrations_bridge/services.py:337), but a timed-out job is retryable and
  not terminal: the retry finds that very job active, returns it and changes nothing
  (`RetryChain.RetryOfTimedOutReturnsIt`).
- A callback's metadata is merged over the job's, so a callback may overwrite the
  `retried_from` link; `RetryChain.CallbackKeepsChainIff` says exactly which written links keep
  the chains whole. The chain theorem holds for runs in which no caller and no callback writes
  that field; the renderer's callbacks do not.
- The renderer sends one callback per accepted job only if its log calls do not raise;
  otherwise it may send two, and `RenderJob.AtMostTwoCallbacks` says exactly when, each log call
  raising or not independently. The second callback cannot change a settled job
  (`Delivery.TerminalJobsIgnoreCallbacks`).
- A report or media kit rendered without a document is completed all the same, with a blank
  asset linked: the renderer then sends `{ outputs }`, and Django reads the result object itself
  as the asset block (backend_core/apps/reports/callbacks.py:73-79). A real file is linked
  exactly when an output was completed with one (`Documents.ReportLinksRealIff`,
  `Documents.KitLinksRealIff`).
- Sanitised text is legal in an XML document exactly when the cleaned text is
  (`SvgText.SanitizedIsLegalIff`), and that may fail: the noncharacters U+FFFE and U+FFFF pass
  the control filter, and the length limit can cut a surrogate pair in two
  (`SvgText.NoncharacterIsIllegal`, `SvgText.ClampedPairIsIllegal`).
- Creating a campaign action directly as failed, dismissed or cancelled skips the validator's
  duplicate check, but the row is inserted as pending first, where the database constraint
  refuses it. In every reachable store that happens exactly when an active action of the same
  type holds the slot, and never to an action of type dismiss
  (`CampaignActions.DirectInactiveCreateFailsIffOccupied`;
  `CampaignActions.DirectCancelIsRefused` is a run in which it does).

## Model

| member | source | states |
|---|---|---|
| `Ledger.AppendSound` | backend_core/apps/billing/services.py:239-287 | appending a row keeps one row per key, running balances exact and every prefix balance non-negative, given the delta is covered or the key is a replay |
| `Ledger.ApplySound` | backend_core/apps/billing/services.py:310-461 | every billing operation, accepted, refused or replayed, keeps the ledger sound and only appends |
| `Ledger.OperationMeans` | backend_core/apps/billing/services.py:239-461 | for each kind: when it is refused and why, what one row it appends, what its workspace's balance becomes, and that no other balance and no replay moves anything |
| `Ledger.EveryHistoryIsSound` | backend_core/apps/billing/services.py:239-461 | for any interleaving of operations on any workspaces: keys unique per workspace, each balance_after is the prefix sum of its workspace's amounts, no balance is ever negative |
| `Ledger.BalanceIsNewestRow` | backend_core/apps/billing/services.py:230-287 | the summed balance equals balance_after of the workspace's newest row, or zero without rows |
| `Ledger.RecordedStays` | backend_core/apps/billing/services.py:255-287 | a key once recorded stays recorded through any further operations |
| `Ledger.ReplaysChangeNothing` | backend_core/apps/billing/services.py:239-287 | a history equals itself with all replays of recorded keys dropped, even replays with another kind or amount |
| `Ledger.ReplayInsertedLater` | backend_core/apps/billing/services.py:239-287 | inserting a replay of a recorded key anywhere later in a history gives the same ledger |
| `Usage.FindEvent` | backend_core/apps/billing/services.py:139-188 | an event under the same type and entity is found iff one is recorded in the workspace |
| `Usage.CountIsCardinality` | backend_core/apps/billing/services.py:507-527 | the loop's count is the cardinality of the set of such events |
| `Billing.BillingService.GetCreditBalance` | backend_core/apps/billing/services.py:230-236 | the returned total is the sum of the workspace's amounts |
| `Billing.BillingService.FindEntry` | backend_core/apps/billing/services.py:255-261 | finds the row under (workspace, key), and none exactly if there is none |
| `Billing.BillingService.CountUsage` | backend_core/apps/billing/services.py:507-527 | the cardinality of the set of the workspace's events of the type in the billing period |
| `Billing.BillingService.CheckWorkspaceLimit` | backend_core/apps/billing/services.py:507-567 | exceeded exactly when a numeric limit exists and the workspace has at least that many events of the type in the period |
| `Billing.BillingService.RecordUsageEvent` | backend_core/apps/billing/services.py:139-188 | appends the event unless its key is recorded; returns its row and whether it is new; nothing else changes |
| `Billing.BillingService.RecordLedgerEntry` | backend_core/apps/billing/services.py:239-287 | appends one row with its running balance unless the key is recorded, and returns the row under the key |
| `Billing.BillingService.GrantCredits` | backend_core/apps/billing/services.py:310-328 | the ledger becomes what the Grant operation makes of it; an error exactly when the amount is not positive |
| `Billing.BillingService.PurchaseCredits` | backend_core/apps/billing/services.py:331-343 | as GrantCredits, for purchases |
| `Billing.BillingService.ReserveCredits` | backend_core/apps/billing/services.py:346-377 | debits the amount, refused exactly when not positive, or not covered by the balance and not a replay |
| `Billing.BillingService.ConsumeCredits` | backend_core/apps/billing/services.py:380-424 | settles a reservation with a zero row, or debits the balance under the same checks as a reservation |
| `Billing.BillingService.ReleaseReservedCredits` | backend_core/apps/billing/services.py:427-443 | credits the amount back once per key |
| `Billing.BillingService.RefundCredits` | backend_core/apps/billing/services.py:446-461 | credits the amount back once per key |
| `Billing.OperationKeepsSound` | backend_core/apps/billing/services.py:310-461 | any such operation on a sound ledger leaves it sound, extended, and with a non-negative balance |
| `Outputs.KeyNotEmpty` | backend_core/apps/content/callbacks.py:285-289 | every item has a non-empty key, its own id or one made of type, template key and index |
| `Outputs.UpsertKeepsKeys` | backend_core/apps/content/callbacks.py:335-394 | merging one item keeps one row per (request, external output key), never drops a row or asset, never unlinks or replaces an asset |
| `Outputs.UpsertAbsorbs` | backend_core/apps/content/callbacks.py:335-394 | after merging an item, merging it again would find nothing to do |
| `Outputs.UpsertTouchesItsKeyOnly` | backend_core/apps/content/callbacks.py:335-394 | merging an item leaves the row of every other key where and as it was |
| `Outputs.ReapplyingIsIdentity` | backend_core/apps/content/callbacks.py:276-394 | re-applying a list whose computed keys are pairwise distinct changes no output and creates no asset |
| `Outputs.GeneratedKeysDiffer` | backend_core/apps/content/callbacks.py:285-289 | keys built without an explicit id differ whenever the indices differ |
| `Outputs.RendererListsReapplySafely` | backend_core/apps/content/callbacks.py:285-289 | hence lists without explicit ids, as the renderer sends them, re-apply without effect |
| `OutputRows.StatusTable` | backend_core/apps/content/callbacks.py:65-71 | which status text gives which output status; an unknown or absent one gives completed |
| `OutputRows.Resolves` | backend_core/apps/content/callbacks.py:292-314 | a template resolves iff one is named by id, by key, or linked to the output type, in that order |
| `OutputRows.MergedListRow` | backend_core/apps/content/callbacks.py:335-394 | after merging a list with distinct keys, every item that had a row or a template has a row under its key: type, format, texts its own where present and the old row's otherwise, status by the table, metadata overlaid, template and asset as resolved, a new asset its own data in the request's workspace |
| `OutputRows.CompletedIff` | backend_core/apps/content/callbacks.py:122-140 | an item is counted completed iff one whose status is completed, absent or unknown had a row, a template, or an earlier item of its key with one |
| `Jobs.FindActive` | backend_core/apps/integrations_bridge/services.py:73-84 | finds the newest non-terminal job of the workspace under a non-blank key, and none exactly if there is none |
| `Jobs.StatusTable` | backend_core/apps/integrations_bridge/models.py:55-68 | the terminal, retryable and failure statuses one by one |
| `Jobs.TransitionStamps` | backend_core/apps/integrations_bridge/services.py:374-406 | which timestamp and message each status writes, that running keeps the first start, and that nothing else of the job but its metadata changes |
| `Backend.BackendCore.constructor` | backend_core/apps/integrations_bridge/models.py:18-68 | a fresh store is the empty one and satisfies the invariant |
| `Backend.BackendCore.NotifyOnce` | backend_core/apps/content/callbacks.py:412-430 | adds the notice unless an equal one exists |
| `Backend.BackendCore.ApplyJobCallback` | backend_core/apps/integrations_bridge/services.py:374-406 | moves the job row as the callback's status says (timestamps, message, merged metadata) and nothing else |
| `Backend.BackendCore.ExistingOutputsByKey` | backend_core/apps/content/callbacks.py:276-282 | the dictionary answers every key with the request's oldest row bearing it |
| `Backend.BackendCore.UpsertOutput` | backend_core/apps/content/callbacks.py:335-394 | rows, assets and the dictionary after one item are those of the merge function, whose rows `OutputRows.MergedListRow` describes; returns the row or None when skipped |
| `Backend.BackendCore.MergeOutputs` | backend_core/apps/content/callbacks.py:122-140 | the loop's rows, assets and its completed, failed and skipped counts are those of merging the list item by item |
| `Backend.BackendCore.MeterGenerated` | backend_core/apps/content/callbacks.py:163-175 | records the generated event once per request when something was produced, and nothing otherwise |
| `Backend.BackendCore.CloseRequest` | backend_core/apps/content/callbacks.py:177-222 | the request's status and time, the one notice its outcome calls for, and the job's transition |
| `Backend.BackendCore.HandleSuccess` | backend_core/apps/content/callbacks.py:122-222 | the whole store after a non-failure callback is the one `Outcomes.SuccessMeans` describes |
| `Backend.BackendCore.HandleFailed` | backend_core/apps/content/callbacks.py:226-271 | the whole store after a failure callback is the one `Outcomes.FailureMeans` describes |
| `Backend.BackendCore.FailOutputs` | backend_core/apps/content/callbacks.py:226-234 | exactly the request's outputs are marked failed |
| `Backend.BackendCore.LinkAssetOnce` | backend_core/apps/reports/callbacks.py:153-168 | creates and links an asset only if the document has none and the result carries one |
| `Invariants.AssetStoredOnce` | backend_core/apps/reports/callbacks.py:153-185 | of two results for one document at most one stores an asset, and a linked asset is never replaced by another |
| `Backend.BackendCore.CompleteReport` | backend_core/apps/reports/callbacks.py:153-185 | the whole store after a report callback that succeeded |
| `Backend.BackendCore.FailReport` | backend_core/apps/reports/callbacks.py:188-211 | the whole store after a report callback that failed |
| `Backend.BackendCore.CompleteMediaKit` | backend_core/apps/reports/callbacks.py:227-257 | the whole store after a media-kit callback that succeeded |
| `Backend.BackendCore.FailMediaKit` | backend_core/apps/reports/callbacks.py:260-285 | the whole store after a media-kit callback that failed |
| `Backend.BackendCore.ApplyContentGenerationCallback` | backend_core/apps/content/callbacks.py:93-119 | the whole store after a pack callback: failure statuses to one handler, every other to the other, a bare job transition without a request |
| `Backend.BackendCore.ApplyReportGenerationCallback` | backend_core/apps/reports/callbacks.py:140-150 | the same for reports |
| `Backend.BackendCore.ApplyMediaKitGenerationCallback` | backend_core/apps/reports/callbacks.py:214-224 | the same for media kits |
| `Backend.BackendCore.CallbackDispatcher` | backend_core/apps/integrations_bridge/callbacks.py:56-161 | the whole store is that of the job type's handler, or of the bare job transition for the other types |
| `Backend.BackendCore.PostCallback` | backend_core/apps/integrations_bridge/views.py:58-168 | the answer fits the message as `Answers.AnswerMeans` says, and the store is untouched unless the callback is fresh; then the whole store after it, including one whose handler raises; keeps the invariant |
| `Answers.AnswerMeans` | backend_core/apps/integrations_bridge/views.py:58-168 | in any store: unknown iff the job does not exist, a bad request iff it exists and its workspace or entity is contradicted, a no-op iff well formed and of the job's status, a conflict iff well formed, of another status, and the job is over; in all four the store is unchanged, and only a fresh callback moves anything |
| `Answers.HandledJob` | backend_core/apps/integrations_bridge/services.py:374-406 | a handled callback moves its own job and no other, with the stamps of its status, its metadata and the time of receipt |
| `Answers.SubjectMeans` | backend_core/apps/content/callbacks.py:93-119 | a job's callbacks act on the request, report or media kit its type and entity name, if that row exists |
| `Outcomes.SuccessMeans` | backend_core/apps/content/callbacks.py:122-222 | after a handled non-failure callback on a content pack: the request is partial iff the callback says so and completed otherwise, now; ready notice and one generated event iff some item leaves a completed output, failed notice and no event otherwise, and no other notice |
| `Outcomes.FailureMeans` | backend_core/apps/content/callbacks.py:226-271 | after a handled failure callback: request and all its outputs failed with the message, the failed notice, no asset, no event |
| `Outcomes.ReportHandled` | backend_core/apps/reports/callbacks.py:140-211 | after a handled callback on a report: status, metadata, asset and the one notice, for success and failure |
| `Outcomes.KitHandled` | backend_core/apps/reports/callbacks.py:214-285 | the same for media kits, whose status a failure leaves alone |
| `Outcomes.RenderedRow` | content_renderer/src/callbacks/callback.payload.ts:25-56 | from the renderer to the row: after the callback for a content pack is handled, each rendered output whose template resolves, or which had a row, has a row with its own type, format, texts, status, template, and file in the request's workspace |
| `Backend.BackendCore.MarkSubmissionFailed` | backend_core/apps/integrations_bridge/services.py:242-296 | marks the job and, unless the audit write raises first, tells the product entity |
| `Backend.BackendCore.SubmitJob` | backend_core/apps/integrations_bridge/services.py:186-239 | the store after each outcome of a submission |
| `Answers.SubmittedJob` | backend_core/apps/integrations_bridge/services.py:186-296 | the job row after each outcome of a submission: waiting, submitted now, or failed or timed out now with the reason |
| `Outcomes.ToldRequest` | backend_core/apps/integrations_bridge/services.py:242-296 | a failing submission that is told fails the request with its reason, adds the failed notice and records nothing |
| `Outcomes.ToldDocument` | backend_core/apps/integrations_bridge/services.py:242-296 | so does one for a report; a media kit keeps its status and notes the reason |
| `Outcomes.UntoldSubmission` | backend_core/apps/integrations_bridge/services.py:186-296 | one that is not told, and one that does not fail, touch nothing but the job |
| `Backend.BackendCore.FindActiveJob` | backend_core/apps/integrations_bridge/services.py:73-84 | the job returned is the newest active one under the key |
| `Backend.BackendCore.CreateAndSubmit` | backend_core/apps/integrations_bridge/services.py:114-183 | reuses the active job of the key or opens and submits a new one, and raises where the submission machinery does, before the row is stored or after its outcome is; keeps the invariant |
| `Answers.OpenedJob` | backend_core/apps/integrations_bridge/services.py:114-183 | with no active job under its key a draft opens one queued job of its workspace, type, entity, metadata and key, the default one if it has none, and submits it |
| `Backend.BackendCore.RetryExternalJob` | backend_core/apps/integrations_bridge/services.py:336-368 | allowed exactly from a retryable status; the store is that of opening the retry draft; keeps the invariant |
| `Answers.RetryOpens` | backend_core/apps/integrations_bridge/services.py:336-368 | exactly from failed, timed out, cancelled or expired a job for the same work opens under the old key, with one retry more and a link to the old job |
| `Backend.BackendCore.MarkCancelled` | backend_core/apps/integrations_bridge/admin.py:59-70 | cancels exactly the selected jobs that are not terminal; keeps the invariant |
| `Answers.CancelledJobs` | backend_core/apps/integrations_bridge/admin.py:59-70 | exactly the selected jobs in one of the four open statuses are cancelled, with the time; nothing else changes |
| `Backend.BackendCore.CreateRequestRows` | backend_core/apps/content/services.py:84-139 | the transaction: request, usage event and reservation, or none of them when the balance does not cover the price |
| `Backend.BackendCore.CreateContentPackRequest` | backend_core/apps/content/services.py:45-203 | accepted exactly when the content pack is active and global or the workspace's own, the quota not used up and the price covered; refused with its reason and an unchanged store otherwise; one request with event, reservation and job, the job unlinked if submitting raised; keeps the invariant |
| `Backend.BackendCore.SubmitReport` | backend_core/apps/reports/services.py:44-128 | accepted exactly when the workspace has no limit or fewer reports in the period than it allows; then row, event and job as specified, the job unlinked if submitting raised; keeps the invariant |
| `Backend.BackendCore.SubmitMediaKit` | backend_core/apps/reports/services.py:63-128 | row, event and job as specified, the job unlinked if submitting raised; keeps the invariant |
| `Answers.CreatedRequestIsServed` | backend_core/apps/content/services.py:139-203 | an accepted creation links its request to a job under the request's own key: the active one, or a new one of its type and entity with its id in the metadata |
| `Answers.CreatedReportIsServed` | backend_core/apps/reports/services.py:44-128 | so does a created report |
| `Answers.CreatedKitIsServed` | backend_core/apps/reports/services.py:63-128 | so does a created media kit |
| `Answers.CreatedDocumentIsMetered` | backend_core/apps/reports/services.py:20-41 | a created report or media kit records one free event of its type, unless its id already has one, and submitting records none |
| `Outcomes.CreatedRequestRow` | backend_core/apps/content/services.py:84-139 | unless its submission fails, an accepted creation leaves one queued row of its workspace and content pack, metered at the price |
| `Outcomes.CreatedRows` | backend_core/apps/reports/services.py:44-128 | likewise one queued report, and one draft media kit, without asset or metadata |
| `Invariants.SettleAppends` | backend_core/apps/content/callbacks.py:142-162 | settling keeps the ledger sound and appends at most one row, a zero consume or a positive release |
| `Invariants.DeliverKeeps` | backend_core/apps/integrations_bridge/views.py:58-110 | one delivery, crashed or not, keeps the invariant and undoes nothing recorded |
| `Invariants.OpenKeeps` | backend_core/apps/integrations_bridge/services.py:114-183 | opening a job keeps the invariant and every existing job row |
| `Invariants.CreateRequestKeeps` | backend_core/apps/content/services.py:45-203 | creating a request keeps the invariant and undoes nothing recorded |
| `Invariants.NextKeeps` | backend_core/apps/integrations_bridge/services.py:114-406 | every step keeps the invariant: sound ledger, metered requests, one active job per key, one output per key, no duplicate notices; ledger, usage and notices only grow, terminal jobs are frozen, linked assets stay |
| `Invariants.RunKeeps` | backend_core/apps/integrations_bridge/services.py:114-406 | so does every run, from any store that satisfies it |
| `Invariants.OneActiveJobEverywhere` | backend_core/apps/integrations_bridge/services.py:73-84 | in every reachable store each (workspace, non-blank key) has at most one non-terminal job |
| `Conservation.BalanceSplits` | backend_core/apps/billing/services.py:230-287 | a balance is the sum of callers' own movements and of the nets of the workspace's requests |
| `Conservation.RequestNet` | backend_core/apps/content/callbacks.py:141-162 | in every reachable store a request nets minus its creation price plus what was released; it has a reserve row iff it was priced |
| `Conservation.ReleaseMintsIffDearer` | backend_core/apps/content/callbacks.py:236-246 | in the ledger, a first release leaves a request with a positive net exactly when the price now exceeds the price at creation |
| `ExactSettlement.DeliveryMintsIffDearer` | backend_core/apps/content/callbacks.py:103-246 | a handled callback that releases leaves its request with a positive net exactly under that condition |
| `ExactSettlement.SubmissionMintsIffDearer` | backend_core/apps/integrations_bridge/services.py:242-296 | so does a failing submission that is told |
| `Conservation.RequestNetsItsCharge` | backend_core/apps/content/callbacks.py:141-246 | at fixed prices a request's rows sum to minus its cost, or to zero exactly when it was released or is free |
| `Conservation.BalanceInEveryRun` | backend_core/apps/content/callbacks.py:141-246 | over every run, price changes included: balance = credits callers added plus what was released minus what was reserved, request by request |
| `Conservation.CreditsConserved` | backend_core/apps/content/services.py:115-123 | over every run that leaves the prices of requested content packs alone: balance = credits callers added minus the costs of unreleased requests, never negative and never above what was added |
| `Conservation.ReleasedStaysFree` | backend_core/apps/content/callbacks.py:141-162 | whatever run at fixed prices follows a release, the request stays released and nets nothing |
| `PriceRise.RaisedPriceMints` | backend_core/apps/content/callbacks.py:236-246 | a concrete five-step run is granted 10 credits and ends with a balance of 13 |
| `ExactSettlement.SettlementAdds` | backend_core/apps/content/callbacks.py:141-162 | settling adds the consume row or the release row on top of whatever was there |
| `ExactSettlement.ExactlyOneIff` | backend_core/apps/content/callbacks.py:141-246 | in the ledger, exactly one of the two rows exists after settling iff the other kind did not exist before |
| `ExactSettlement.DeliveryLeavesOneIff` | backend_core/apps/content/callbacks.py:103-246 | in any store, a processed callback on a priced request leaves exactly one of the two rows iff the other kind did not exist before it |
| `ExactSettlement.SubmissionSettles` | backend_core/apps/integrations_bridge/services.py:242-296 | in any store, a failing submission that is told releases at the current price, fails the request and all its outputs; one that is not told leaves ledger, request status and outputs alone |
| `ExactSettlement.SubmissionLeavesOneIff` | backend_core/apps/integrations_bridge/services.py:242-296 | in any store, a failing submission on a priced request leaves exactly one of the two rows iff, when told, it was not consumed, and when not told, exactly one was there |
| `ExactSettlement.FailedRetryUndoesCharge` | backend_core/apps/integrations_bridge/services.py:336-368 | a failing, told retry of a delivered and charged request fails it, marks its outputs failed and leaves it with a net of zero |
| `StandingCharge.SettledRequestStands` | backend_core/apps/content/callbacks.py:103-271 | once all jobs of a request are over, no run that opens and retries none changes its row, its outputs or its two ledger rows |
| `UndoneCharge.RetryUndoesCharge` | backend_core/apps/integrations_bridge/services.py:336-368 | a concrete run: cancelled, retried, completed and charged 5, retried again in vain; the request is failed, both rows exist and the balance is what was granted |
| `ExactSettlement.FailedCreationSettlesIffTold` | backend_core/apps/content/services.py:115-203 | a priced request created with a failing submission is released iff it could be told, and stays queued otherwise |
| `ExactSettlement.CancelTidy` | backend_core/apps/integrations_bridge/admin.py:59-70 | a cancellation settles nothing: the reservation of a cancelled job keeps standing |
| `StandingReservation.UntoldFailureStrands` | backend_core/apps/integrations_bridge/services.py:287-296 | a concrete run: a failed submission whose request is not told leaves it queued, unsettled, its only job over |
| `StandingReservation.CancellationStrands` | backend_core/apps/integrations_bridge/admin.py:59-70 | a concrete run: so does a cancellation |
| `StandingReservation.StrandedStays` | backend_core/apps/integrations_bridge/services.py:336-368 | such a reservation stays until a job is opened or retried for its request |
| `ExactSettlement.DispatchSettles` | backend_core/apps/content/callbacks.py:103-271 | on an unsettled priced request a callback leaves exactly one row, the consume iff it is no failure and the credits are to be kept; the job takes its status, other jobs stay |
| `ExactSettlement.ExactlyOneSettlement` | backend_core/apps/content/callbacks.py:113-162 | along every plain run, failed submissions (told or not) and cancellations included: never both rows, exactly one iff the request has left queued, and which one as the job says: none while open or cancelled, consume for completed, release for expired, release for failed iff the request was told |
| `ExactSettlement.DecidingCallback` | backend_core/apps/content/callbacks.py:141-409 | the deciding callback consumes iff it is no failure and the credits are to be kept, and releases otherwise |
| `ExactSettlement.CompletionAfterReleaseIsFree` | backend_core/apps/content/callbacks.py:103-162 | a completion of a released request, whatever released it, completes the request and leaves it with a net of zero |
| `ExactSettlement.RunningThenCompletedIsFree` | backend_core/apps/content/callbacks.py:103-162 | a running callback without outputs releases and completes the request; completed then consumes beside the release, net zero |
| `LateCompletion.LateCompletionIsFree` | backend_core/apps/integrations_bridge/services.py:256-270 | a concrete four-step run: the submission times out, the completion arrives, the request is completed and the balance is what was granted |
| `Quotas.CreationAddsOneOfEach` | backend_core/apps/content/services.py:95-123 | an accepted creation appends exactly one request, one event and, for a priced pack, one reservation of its price |
| `Quotas.CreationIsAllOrNothing` | backend_core/apps/content/services.py:78-139 | a refused creation changes nothing; an accepted one leaves one more request, reserved iff priced, whatever its submission does |
| `Quotas.RefusalMeans` | backend_core/apps/content/services.py:45-139 | which of the three refusals is given, exactly, in the order of the checks, with the usage counted as a cardinality |
| `Quotas.CreatedIffAllowed` | backend_core/apps/content/services.py:45-203 | the converse of the quota: an active pack that is global or the workspace's own, fewer events than the limit, and a covered price is accepted and adds one request; everything else changes nothing |
| `Quotas.ReportCreatedIffWithinQuota` | backend_core/apps/reports/views.py:67-78 | a report is created exactly when the workspace has no limit or fewer reports in the period |
| `Quotas.TooPoorIsRefused` | backend_core/apps/content/services.py:115-123 | a balance below the price refuses the creation and leaves the store as it was |
| `Quotas.RequestsAndEventsPairUp` | backend_core/apps/content/services.py:95-113 | in every reachable store requests and content_pack_requested events are in one-to-one correspondence |
| `Quotas.QuotaHolds` | backend_core/apps/billing/services.py:507-567 | while the limit stays n, no billing period's count of requests (or reports) ever passes n, over any run |
| `RetryChain.RetryLeavesOldJobs` | backend_core/apps/integrations_bridge/services.py:336-368 | a retry leaves every existing job as it was |
| `RetryChain.RetryOfTimedOutReturnsIt` | backend_core/apps/integrations_bridge/services.py:336-368 | retrying a timed-out job returns that job and changes nothing |
| `RetryChain.RetryChains` | backend_core/apps/integrations_bridge/services.py:345-368 | exactly the retried jobs carry retried_from, it names an older job of the same entity with one retry less, and the chain has exactly retry_count links |
| `RetryChain.CallbackKeepsChainIff` | backend_core/apps/integrations_bridge/services.py:402-406 | a callback keeps all chains whole iff it writes no link or a good one over a retried job |
| `CallbackClient.Normalise` | content_renderer/src/callbacks/callback.client.ts:67-72 | at least one attempt, a positive timeout in milliseconds rounded to the nearest, a cap no smaller than the base delay; sane values are taken as they are |
| `CallbackClient.DelaysGrow` | content_renderer/src/callbacks/callback.client.ts:73-76 | delays never shrink from one attempt to a later one and never pass the cap |
| `CallbackClient.DelaysDouble` | content_renderer/src/callbacks/callback.client.ts:72-76 | the first delay is the base and each further one twice the last, up to the cap |
| `CallbackClient.StopsInCodes` | content_renderer/src/callbacks/callback.client.ts:52-160 | in status codes: every reply before the last attempt is none or one of 500, 502, 503, 504; an early stop has another status; a success that only such replies precede is reached |
| `CallbackClient.StopIsUnique` | content_renderer/src/callbacks/callback.client.ts:88-158 | the stopping attempt is the only one preceded by transient replies and not itself transient, unless last |
| `CallbackClient.Send` | content_renderer/src/callbacks/callback.client.ts:78-168 | stops at that attempt, ok iff it was 2xx, total sleep is the sum of the delays, elapsed time is within maxAttempts timeouts plus maxAttempts - 1 cap delays, and the code after the loop is unreachable |
| `Delivery.DeliveryClosesGate` | backend_core/apps/integrations_bridge/views.py:72-108 | after a delivery that did not crash the same callback never passes the gate again |
| `Receipts.NextAlike` | backend_core/apps/integrations_bridge/views.py:95-98 | no step reads when a callback was last received: stores equal up to receipt times stay so |
| `Receipts.CrashesLeaveReceiptsOnly` | backend_core/apps/integrations_bridge/views.py:95-108 | a run equals, up to receipt times, the run without its crashed deliveries, wherever they fall |
| `Delivery.AtLeastOnceIsExactlyOnce` | backend_core/apps/integrations_bridge/views.py:58-110 | attempts that follow each other directly, in any pattern of lost, crashed and handled, leave the store of the first handled one alone, or, without one, only a receipt time |
| `Delivery.InterleavedIsExactlyOnce` | backend_core/apps/integrations_bridge/views.py:58-110 | a run with any crashed and repeated deliveries of a callback that ends its job, among any other steps, equals up to receipt times the run with the first handled one alone |
| `Delivery.OnceOnlyCounts` | backend_core/apps/integrations_bridge/views.py:72-93 | that run holds exactly one delivery of the callback if any was handled, and none otherwise |
| `Delivery.SendAndServe` | content_renderer/src/callbacks/callback.client.ts:88-158 | the client's loop against a store on which others act between its attempts: success means the callback was handled and its job has its status; in any case its effects are there at most once |
| `Delivery.TerminalJobsIgnoreCallbacks` | backend_core/apps/integrations_bridge/views.py:97-105 | once a job is terminal a run equals the run without its callbacks |
| `Delivery.CallbacksDecide` | backend_core/apps/integrations_bridge/services.py:374-406 | well-formed callbacks, each at its own time and some crashing, lead to the first terminal status handled, or the last handled one |
| `Delivery.FirstTerminalDecides` | backend_core/apps/integrations_bridge/views.py:72-108 | from a non-terminal job the first terminal callback decides, and all later ones leave the whole store unchanged |
| `RenderJob.JobService.AcceptJob` | content_renderer/src/jobs/job.service.ts:155-163 | a job is accepted iff its type is supported and the log call does not raise |
| `RenderJob.JobService.DeliverCallback` | content_renderer/src/jobs/job.service.ts:244-281 | hands the client the payload of the result, once, and raises exactly under the stated log faults |
| `RenderJob.JobService.ExecuteJob` | content_renderer/src/jobs/job.service.ts:206-242 | sends the result's payload, or the failed one when the render throws |
| `RenderJob.JobService.RunInBackground` | content_renderer/src/jobs/job.service.ts:184-204 | adds the safety net's callback exactly when execution raised and the net could log |
| `RenderJob.JobService.Receive` | content_renderer/src/jobs/job.service.ts:155-204 | a declined job, and one whose reception raises, sends nothing; an accepted one sends what its background run does |
| `RenderJob.OneCallbackPerAcceptedJob` | content_renderer/src/jobs/job.service.ts:184-281 | without log faults exactly one callback leaves, and it says what the renderer did |
| `RenderJob.AtMostTwoCallbacks` | content_renderer/src/jobs/job.service.ts:184-281 | each log call raising or not on its own: at most two callbacks leave, and two or none exactly in the stated cases |
| `RenderJob.PayloadsAreOrderly` | content_renderer/src/callbacks/callback.payload.ts:25-80 | every callback has one of three terminal statuses, names its own job and entity, and carries no output ids |
| `RenderJob.PayloadSays` | content_renderer/src/callbacks/callback.payload.ts:25-80 | each rendering status gives its own callback status, and a failed one the text of its job type and an empty result |
| `EndToEnd.PartialConsumesIff` | backend_core/apps/content/callbacks.py:397-409 | a partial completion keeps the credits iff a completed item is required, or is completed at all when none is required |
| `EndToEnd.ChargeAgrees` | backend_core/apps/content/callbacks.py:397-409 | Django's decision on the items equals the one on the renderer's own outputs |
| `EndToEnd.RunAnswers` | backend_core/apps/integrations_bridge/views.py:58-110 | along a plain run from an open job on, the request waits until the callback is handled once, and from then on is answered by it, or its job was cancelled |
| `EndToEnd.RenderedOnceSettledOnce` | content_renderer/src/jobs/job.service.ts:184-281 | one render of an open job, its one callback lost, repeated or crashed in any pattern among any other plain steps, one delivery handled: the run equals the one with that delivery alone, and unless the job was cancelled the reservation is consumed if the rendering is charged for, released otherwise |
| `Documents.ReportLinksRealIff` | backend_core/apps/reports/callbacks.py:73-185 | a handled success callback of the renderer for a report without an asset links a new one, a real file iff an output was completed with one, and then the first such, whose metadata overlays the report's |
| `Documents.KitLinksRealIff` | backend_core/apps/reports/callbacks.py:73-257 | the same for media kits |
| `RenderedRun.RenderedRunConsumes` | backend_core/apps/content/callbacks.py:141-162 | a concrete six-step run that theorem applies to: a callback that crashes once and is handled twice leaves the job completed, the credits consumed and not released |
| `IntelligenceClient.SleepClosedForm` | backend_core/apps/integrations_bridge/intelligence_sync.py:199-225 | total sleep after k attempts is backoff * k * (k - 1) / 2 |
| `IntelligenceClient.DecidingInCodes` | backend_core/apps/integrations_bridge/intelligence_sync.py:199-225 | in status codes: another attempt follows exactly a timeout, an unreachable engine or a status from 500 to 599; the first answer that only those precede is returned |
| `IntelligenceClient.PostCampaignIntelligence` | backend_core/apps/integrations_bridge/intelligence_sync.py:174-300 | stops at the first outcome that is not transient or after max_retries + 1 attempts, with that outcome's result or error |
| `IntelligenceClient.Run` | backend_core/apps/campaigns/intelligence_service.py:160-257 | unavailable iff all attempts were transient, upstream iff the first other outcome is no answer, otherwise that answer; no call when missing, disabled or dry-run |
| `IntelligenceClient.OutcomeDecides` | backend_core/apps/campaigns/intelligence_service.py:197-257 | that classification, for every sequence of outcomes |
| `CampaignActions.TransitionKeeps` | backend_core/apps/campaign_actions/services.py:40-136 | an accepted transition keeps the timestamps, reason and type rules although it never reads the type, and never enters the active statuses from outside |
| `CampaignActions.RepeatKeepsTimestamps` | backend_core/apps/campaign_actions/services.py:69-136 | repeating the current status keeps the first timestamps |
| `ActionRules.ExactlyTheMoves` | backend_core/apps/campaign_actions/services.py:8-66 | exactly the eight moves and repetitions are allowed, a dismissal only with a reason that is not blank, and which error each other attempt gets |
| `ActionRules.MovesAreMade` | backend_core/apps/campaign_actions/services.py:69-136 | each of them is made, with the resulting status, timestamps and reason; everything else changes nothing |
| `CampaignActions.MovedKeeps` | backend_core/apps/campaign_actions/services.py:69-136 | transitions keep every action well kept and slots free of duplicates without a duplicate check |
| `CampaignActions.CreatedKeeps` | backend_core/apps/campaign_actions/serializers.py:274-325 | so does creation |
| `ActionRules.CreatedIff` | backend_core/apps/campaign_actions/serializers.py:274-463 | a creation stores its row, with the stated fields, exactly when the input is well filled and no active action holds its slot, whatever status it asks for |
| `CampaignActions.PatchedKeeps` | backend_core/apps/campaign_actions/serializers.py:234-341 | so does a patch |
| `ActionRules.PatchedIff` | backend_core/apps/campaign_actions/serializers.py:326-457 | a patch is made, with the stated fields, exactly when it repeats the immutable fields, moves as a transition may and leaves reason, type and slot in order |
| `CampaignActions.EveryRunWellKept` | backend_core/apps/campaign_actions/serializers.py:234-425 | over every run: completed_at iff completed, cancelled_at iff cancelled, dismissed implies a reason, the two special types keep their status, no two active actions share a slot |
| `ActionRules.EveryRunInWords` | backend_core/apps/campaign_actions/serializers.py:343-463 | the same, status by status, and that every action but a manual task has a reference and a snapshot |
| `ActionRules.StripIsSlice` | backend_core/apps/campaign_actions/services.py:80-84 | stripping drops blanks at both ends and nothing else |
| `CampaignActions.TerminalStatusStays` | backend_core/apps/campaign_actions/services.py:8-29 | no step changes a terminal action's status or timestamps |
| `CampaignActions.DirectInactiveCreateFailsIffOccupied` | backend_core/apps/campaign_actions/serializers.py:274-325 | in every reachable store a valid creation is refused by the database iff it is no dismissal, asks for failed, dismissed or cancelled at once, and an active action holds its slot |
| `CampaignActions.DirectCancelIsRefused` | backend_core/apps/campaign_actions/serializers.py:274-325 | a concrete run in which it is |
| `CampaignActions.ActionStore.Write` | backend_core/apps/campaign_actions/services.py:86-127 | the field-by-field writes of a transition amount to the specified action |
| `CampaignActions.ActionStore.TransitionCampaignAction` | backend_core/apps/campaign_actions/services.py:69-136 | the stored action, the returned result and the error are those of the specification; keeps the invariant |
| `CampaignActions.ActionStore.CreateAction` | backend_core/apps/campaign_actions/serializers.py:295-325 | as specified, including the rollback of a refused insert; keeps the invariant |
| `CampaignActions.ActionStore.UpdateAction` | backend_core/apps/campaign_actions/serializers.py:326-341 | as specified; keeps the invariant |
| `Moments.Detect` | intelligence_engine/app/services/moment_detector.py:92-120 | the list is strictly sorted by severity, confidence and type, has at most one moment per type, and holds exactly the detections that fired |
| `Moments.SortSorts` | intelligence_engine/app/services/moment_detector.py:329-335 | the order is strict and the sort a permutation |
| `Moments.SortedIsUnique` | intelligence_engine/app/services/moment_detector.py:329-335 | there is only one such arrangement |
| `Moments.OutputsMean` | intelligence_engine/app/services/moment_detector.py:402-413 | the detector's filtered list and its any() over it say that a completed, or a recent completed, output exists |
| `Moments.ActivityMeans` | intelligence_engine/app/services/moment_detector.py:380-390 | the detector's any() over the four counters says that one is positive |
| `Moments.KitsMean` | intelligence_engine/app/services/moment_detector.py:415-419 | the detector's any() says that a usable media kit exists |
| `Moments.ReportsMean` | intelligence_engine/app/services/moment_detector.py:421-433 | the detector's lists say that a completed report counts as recent |
| `Moments.FiresIffDetected` | intelligence_engine/app/services/moment_detector.py:92-120 | a type is reported iff its own detection fires, and as that detection says |
| `Moments.NeverBothEngagements` | intelligence_engine/app/services/moment_detector.py:203-303 | low engagement and smart-link activity are never both reported |
| `MomentTable.ReleaseWindowTable` | intelligence_engine/app/services/moment_detector.py:122-142 | reported iff the release is at most 14 days away on either side and the campaign not finished; high at 0.90 up to three days, medium at 0.80 otherwise |
| `MomentTable.WeeklyGrowthTable` | intelligence_engine/app/services/moment_detector.py:144-165 | medium, at 0.75 for the campaign type, else at 0.65 from 20 clicks in seven days |
| `MomentTable.MilestoneTable` | intelligence_engine/app/services/moment_detector.py:167-201 | unless finished: high at 0.85 for an achieved goal, else high at 0.80 for the type, else medium at 0.65 from 1000 clicks |
| `MomentTable.LowEngagementTable` | intelligence_engine/app/services/moment_detector.py:203-215 | at 0.75 iff there are statistics without any positive counter; high iff the campaign is active |
| `MomentTable.ContentGapTable` | intelligence_engine/app/services/moment_detector.py:217-243 | without a completed output at 0.80, high iff active; with none completed in the last 14 days low at 0.60 |
| `MomentTable.ReportDueTable` | intelligence_engine/app/services/moment_detector.py:245-267 | medium at 0.70 iff active, completed or paused, without a recent report, and with something to report |
| `MomentTable.MediaKitTable` | intelligence_engine/app/services/moment_detector.py:269-283 | at 0.70 iff no usable kit and no mere draft; high iff a media campaign |
| `MomentTable.LinkActivityTable` | intelligence_engine/app/services/moment_detector.py:285-302 | low at 0.70 iff a counter is positive and weekly growth does not fire |
| `MomentTable.RecentReportTable` | intelligence_engine/app/services/moment_detector.py:421-433 | no report is recent iff none is completed, or some are dated and all of those ended more than 30 days before the date |
| `MomentTable.OrderTable` | intelligence_engine/app/services/moment_detector.py:328-335 | the order in words: high, medium, low, then the greater confidence, then the type's name as text |
| `Moments.OrderOfListsIsIrrelevant` | intelligence_engine/app/services/moment_detector.py:402-433 | permuting outputs, reports, media kits and goals does not change the result |
| `Analysis.CompletedMeans` | intelligence_engine/app/services/campaign_analysis.py:121-126 | the analysis's list of completed outputs is non-empty iff one exists |
| `Analysis.RecentMeans` | intelligence_engine/app/services/campaign_analysis.py:147-153 | its list of recent ones is non-empty iff a recent completed output exists |
| `Analysis.LinkActivityMeans` | intelligence_engine/app/services/campaign_analysis.py:316-324 | its any() over the four counters says that one is positive |
| `Analysis.RecentlyReportedMeans` | intelligence_engine/app/services/campaign_analysis.py:336-352 | its lists say that a completed report counts as recent |
| `Analysis.EvalContentOutputs` | intelligence_engine/app/services/campaign_analysis.py:112-165 | computed from the bundle: appends exactly the stated strengths or the gap opportunity |
| `Analysis.EvalSmartLinks` | intelligence_engine/app/services/campaign_analysis.py:167-204 | appends the strength or the weakness the statistics call for |
| `Analysis.EvalReports` | intelligence_engine/app/services/campaign_analysis.py:206-222 | appends the opportunity iff no completed report counts as recent |
| `Analysis.EvalMediaKit` | intelligence_engine/app/services/campaign_analysis.py:224-242 | appends the opportunity iff no usable media kit exists |
| `Analysis.EvalRisk` | intelligence_engine/app/services/campaign_analysis.py:244-264 | appends the risk iff the campaign is active with a gap and without link activity |
| `Analysis.SignalTable` | intelligence_engine/app/services/campaign_analysis.py:112-264 | every signal said of the members of the bundle: which outputs, counters, reports, kits and status call for it |
| `Analysis.Analyse` | intelligence_engine/app/services/campaign_analysis.py:63-110 | the assessment equals the table of conditions |
| `Analysis.HealthMeaning` | intelligence_engine/app/services/campaign_analysis.py:244-403 | risks and strengths never coexist; health is critical iff there is a risk, good iff strengths and no weaknesses, unknown iff nothing was supplied |
| `Analysis.EnginesAgree` | intelligence_engine/app/services/campaign_analysis.py:112-242 | although each engine computes its own predicates: each shared moment fires iff the analysis shows its signal and the detector's own status and type condition holds |
| `Analysis.ReportsAgree` | intelligence_engine/app/services/moment_detector.py:245-267 | report_due fires iff the analysis finds a report due, the status calls for one and there is something to report |
| `SvgText.CleanedIsClean` | content_renderer/src/templates/svg.ts:30-45 | the cleaned text has no control characters, no white space but single spaces, and at most maxLength units |
| `SvgWords.CleanedIsWords` | content_renderer/src/templates/svg.ts:30-45 | the cleaned text is the words of the text without its control characters, in order, joined by single spaces and cut at the limit |
| `SvgWords.KeptIffOrdinary` | content_renderer/src/templates/svg.ts:30-45 | cleaning leaves a text as it is iff it consists of visible units, by number, with single spaces between some, and fits |
| `SvgWords.StripsPiecewise` | content_renderer/src/templates/svg.ts:30-45 | control characters are dropped wherever they stand, and nothing else |
| `SvgText.SequentialIsSimultaneous` | content_renderer/src/templates/svg.ts:36-45 | the five sequential replacements equal one simultaneous per-character escape |
| `SvgText.EscapeIsSafe` | content_renderer/src/templates/svg.ts:36-45 | the result has no raw markup character and every ampersand starts one of the five references |
| `SvgText.SanitizedTextIsSafeAndFaithful` | content_renderer/src/templates/svg.ts:30-45 | both hold of the sanitised text, and unescaping it gives the cleaned text back |
| `SvgText.SanitizedIsLegalIff` | content_renderer/src/templates/svg.ts:30-45 | the result consists of characters XML 1.0 allows (section 2.2), surrogates paired, iff the cleaned text does |
| `SvgText.ClampedPairIsIllegal` | content_renderer/src/templates/svg.ts:30-45 | every surrogate pair, itself legal, is illegal once sanitised to one unit |
| `SvgText.NoncharacterIsIllegal` | content_renderer/src/templates/svg.ts:30-45 | U+FFFE and U+FFFF pass the cleaning and make the result illegal |
| `Slugs.CandidatesDiffer` | backend_core/apps/catalogue/services.py:12-17 | the candidates base, base-2, base-3, ... are pairwise different |
| `Slugs.SomeCandidateIsFree` | backend_core/apps/catalogue/services.py:12-18 | among the first n + 1 candidates one is free of n taken slugs |
| `Slugs.FirstFreeInText` | backend_core/apps/catalogue/services.py:6-18 | the result in full: the value's slug or the fallback word if free, else the first free one of base-2, base-3, ... |
| `Slugs.SlugTable.GenerateUniqueSlug` | backend_core/apps/catalogue/services.py:6-18 | returns the first free candidate after at most as many passes as there are taken slugs |
| `Slugs.SlugTable.Create` | backend_core/apps/catalogue/services.py:6-18 | per-workspace slug uniqueness is kept by every creation |
| `Slugs.SlugTable.SoftDelete` | backend_core/apps/catalogue/services.py:9-10 | a soft-deleted row keeps occupying its slug |
| `Decimals.NumberingIsInjective` | backend_core/apps/content/callbacks.py:285-289 | names that end in a separator and a decimal numeral determine the number |

## Left out

- Unserialised transactions: the program takes no row lock on jobs or the ledger and recovers from some races through IntegrityError; here every transaction, and every submission with the write after its call, is one step.
- Backend.BackendCore.PostCallback: does not model callbacks addressed by external_job_id or the unique (provider, external_job_id) constraint; the renderer always names the job id.
- Backend.BackendCore.CreateContentPackRequest: does not model the ownership checks on campaign, track and artist, which refuse a creation before anything is written.
- Usage.FindEvent: every event has the key its flow formats from its type and entity; events without a key or under a caller's own key are not modelled.
- Billing.BillingService.RecordUsageEvent: the same restriction on keys.
- Billing.BillingService.CheckWorkspaceLimit: does not model an increment other than one or the counters of artists, tracks, campaigns and smart links.
- Jobs without a workspace: every modelled job has one.
- Backend.BackendCore.SubmitMediaKit: does not model the text that a submission that raised leaves in a document's metadata; the row stays unlinked.
- Stored payloads, request envelopes, audit rows, log text, notification titles and actor fields are not modelled; no modelled decision reads them.
- User edits of outputs and reports through the API, asset deletion and subscription changes are no steps of the store; a plan's limits are changed by one step.
- JSON null and non-object values inside a callback's result: fields are absent or of their type.
- Decimal rounding: amounts are whole ten-thousandths of a credit.
- CallbackClient.Send: does not model delays beyond exact integers, the abort timer or its own log calls raising; an attempt reports how long it took.
- IntelligenceClient.PostCampaignIntelligence: does not model parsing of bodies, because each attempt's classified outcome is the input.
- RenderJob.JobService.ExecuteJob: does not model rendering, its timeout race or the aggregation of error details; a render returns a result or throws.
- CampaignActions.ActionStore.CreateAction: the checks on related objects are one verdict given as input; the snapshot's contents and their redaction are not modelled.
- CampaignActions.ActionStore.UpdateAction: the same, and whether snapshot and source are repeated unchanged is part of that verdict.
- CampaignActions.Strip: white space is the four ASCII blanks, not Python's full Unicode set.
- Bundle.Lower: lower-cases ASCII letters only.
- Moments.Detect: does not model summaries, recommended actions, explanation texts, warnings and the parsing of the reference date.
- Analysis.Analyse: does not model messages, summaries and consistency warnings.
- Slugs.SlugTable.GenerateUniqueSlug: does not model slugify or the column's length limit, on which a very long slug would fail.
- Not modelled at all: Stripe webhooks, the intelligence orchestrator's deduplication, colour sanitising and SVG layout, other creation quotas, permissions, health checks, the front end, and the rendering, scoring and recommendation engines.

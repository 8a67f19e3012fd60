# Smart Compact: a verified model

Smart Compact edits an append-only chat session and hands prepared summaries to its host. This
project models three parts of it in Dafny and proves what they promise.

**The context-edit planner** (`Branch`, `ToolGroups`, `Inspect`, `InspectMemo`, `Economics`,
`Frontier`, `FrontierTokens`, `Markers`, `Thinking`, `TrimPlan`, `TrimSafety`, `TrimLedger`,
`TrimRuns`, `RewindPlan`, `RewindSafety`). A branch is a sequence of entries; the host's projection
applies each entry's newest edit. Proved are the optimality of the greedy frontier over all
subsets, the pairing of calls and results after a rewind, the safety of signed thinking, the
authorization of archived ids, the round trip from a trim to a read, the memo against the full
walk, and the books of whole runs of trims.

**The life of a prepared summary** (`Preparation`, `Revalidate`, `PendingSlot`, `CommitStore`,
`CommitDesk`, `Handoff`, `Lifecycle`, `Extension`, `Delivery`, `DeliveryGate`, `Pivot`). Each protocol is a state with one
function per event; a run is any sequence of events, so theorems about runs hold for every
interleaving of completions, timers, callbacks and cancellations. The classes beside these
functions keep the program's fields and are proved to take exactly those steps.

**Bounded resources and readers** (`CachePayload`, `CacheLimit`, `CacheAnchor`, `CacheRewrite`,
`CacheTail`, `CacheRequest`, `Budget`, `Evidence`, `SessionLines`): the four cache breakpoints of an
Anthropic request, the budget ledger of concurrent requests, paged search and reading, and the
line splitter over a refilled buffer.

Host services enter as parameters: digests, fingerprints, token estimators, text cleaning, tool
classification, tool call id spelling, clocks, usage readings and the host's answers. Assumptions
on them are stated where they are used: message weights are not negative
(`Revalidate.HonestWeights`), retrieval lines fit the marker limit (`TrimSafety.HeadsFit`), entry ids
are unique, and a branch has no more messages than the position the planner gives an absent one
(`Frontier.ABSENT`), each run draws an id of its own (`Lifecycle.FreshIds`), and a fingerprint tells a
recorded context from what is shown in its place (`RewindSafety.Distinguishes`). Prices, percentages
and the usage readings of revalidation, preparation windows and responses are reals; the planner's
token estimates and all counters are unbounded integers. Rounding of floating-point sums is not
modelled.

Five claims hold only under a condition the code does not check, each stated exactly:

- A rewind keeps calls and results paired if and only if the checkpoint does not lie inside a
  removable batch (`RewindSafety.RewindKeepsPairing`, `RewindSafety.StraddleExample`), which none
  recorded at a turn boundary does (`RewindSafety.TurnBoundaryKeepsPairing`).
- A committed trim or rewind reads back if and only if no recorded id is longer than 128 characters,
  since a longer one invalidates the whole record (`TrimSafety.TrimRoundTrip`,
  `RewindSafety.RewindRoundTrip`).
- A run can be both committed and recorded as failed if and only if its run id is submitted twice
  (`CommitDesk.NeverBoth`, `CommitDesk.ResubmissionExactly`).
- A drain loses its failed notifications if and only if it ends while its captured context reports
  another session without a session event (`Delivery.NothingLostExactly`, `Delivery.LossExample`).
- Frontier scoring equals the token report if and only if no picked marker is estimated above its
  message (`FrontierTokens.EconomicsAgree`).

Run `dafny verify dfyconfig.toml` with `--resource-limit 2000000 --verification-time-limit 0
--warn-contradictory-assumptions`.

## Model

| member | source | states |
|---|---|---|
| ToolGroups.FindGroups | src/app/context-operations.ts:178-208 | the two-pass scan over turns and results returns exactly the complete call/result groups |
| ToolGroups.GroupsKeys | src/app/context-operations.ts:178-212 | an entry is grouped if and only if some complete group of an admitted batch holds it |
| ToolGroups.RemovalKeepsPairing | src/app/context-operations.ts:178-212 | for any paired projection, removing the complete groups after a boundary leaves it paired if and only if the boundary does not cut a removable batch |
| ToolGroups.ScanHits | src/app/context-operations.ts:188-200 | in a paired projection one scan answers every pending call and meets every result of the batch |
| Inspect.InspectWalk | src/app/context-operations.ts:125-170 | the walk computes the fold of all control records and edits over the branch |
| Inspect.AuthorizedByNewest | src/app/context-operations.ts:125-149 | an id is authorized if and only if its newest event on the branch is an owned record, with the evidence that record gave |
| Inspect.ReadableExactly | src/app/context-operations.ts:734-746 | over every history, an id reads back if and only if its newest event is an owned record, its entry is archivable text and the digest still agrees; the text read is then the entry's own |
| Inspect.ForeignEditRevokes | src/app/context-operations.ts:125-149 | a later edit by anyone revokes an id until an owned record lists it again |
| Inspect.TrimRoi | src/app/context-operations.ts:694-724 | the savings report computed by the loop is the sum over the live trims, never below zero |
| InspectMemo.LookupAgrees | src/app/context-operations.ts:109-123 | one memoized call returns what the walk returns and keeps the memo coherent and bounded |
| InspectMemo.MemoAgrees | src/app/context-operations.ts:96-123 | for every run of calls on branches of growing append-only trees, through overwrites and evictions, every answer is the walk's and at most eight sessions are held |
| InspectMemo.SamePath | src/app/context-operations.ts:87-95 | in a tree with unique ids two branches with the same last entry are the same branch, which is what the memo's key relies on |
| InspectMemo.InspectionMemo.Inspect | src/app/context-operations.ts:109-123 | the class that updates the memo in place refines the memo step |
| Economics.BreakEvenMonotone | src/app/context-operations.ts:625-634 | saving more and rewriting less never turns an affordable trim unaffordable |
| Economics.ComputeTrimTokens | src/app/context-operations.ts:599-617 | the token loop computes saved and tail tokens of an edit set |
| Economics.SavedPlusTail | src/app/context-operations.ts:599-617 | conservation: saved plus rebuilt tail tokens equal the original tokens from the first edit on |
| Frontier.FindFrontier | src/app/context-operations.ts:419-469 | prefix sums, one position and saving per candidate and one descending pass compute the selection |
| Frontier.FrontierOptimal | src/app/context-operations.ts:409-469 | among all subsets of the candidates that pay back and clear the floor, not only suffixes, the scanned suffix saves the most characters; if no subset does, the full set is returned |
| Frontier.WholePromptTakesAll | src/app/context-operations.ts:414-415 | when the whole prompt is missed and any subset pays, the full set is selected |
| Frontier.SuffixPaysToo | src/app/context-operations.ts:410-413 | if a subset pays, so does everything from its first member on |
| FrontierTokens.EconomicsAgree | src/app/context-operations.ts:434-460 | the frontier's prefix-sum economics equal trimTokens on the same picks if and only if no picked marker is estimated above the message it replaces |
| Markers.BoundedMarker | src/app/context-operations.ts:252-261 | the marker loop keeps the retrieval line and drops digest lines from the end to fit |
| Markers.MarkerBounded | src/app/context-operations.ts:251-261 | every marker starts with its whole retrieval line and has at most 400 characters, or is that line alone |
| Thinking.ThinkingEditReason | src/app/context-operations.ts:370-384 | the loop decides whether an edit set is refused |
| Thinking.BlockedExactly | src/app/context-operations.ts:370-384 | an edit set is refused if and only if it edits something at or before a signed-thinking message it keeps |
| Thinking.AcceptedKeepsPrefix | src/app/context-operations.ts:364-384 | when accepted, every signed-thinking message kept has an identical projected prefix before and after the edits are committed, provided they bring no removed entry back; no trim and no rewind does (TrimSafety.TrimKeepsThinking, RewindSafety.RewindKeepsThinking) |
| Thinking.LateEditsDoNotBlock | src/app/context-operations.ts:364-384 | edits after the last signed message never cause a refusal |
| TrimPlan.PlanContextTrim | src/app/context-operations.ts:471-533 | the planner method computes the plan: eligible outputs, selection, edits, references, archives, refusal, cooldown and readiness |
| TrimPlan.Assemble | src/app/context-operations.ts:508-517 | the assembly loop yields edits, references, evidence and net saving of the chosen candidates |
| TrimSafety.EachEditSaves | src/app/context-operations.ts:491-506 | with retrieval lines within the limit every edit saves at least 1,648 characters |
| TrimSafety.PlanSavesMost | src/app/context-operations.ts:471-533 | an accepted plan with known prices saves at least as much as any paying subset of the eligible outputs |
| TrimSafety.AnchorsUntouched | src/app/context-operations.ts:475-479 | under the default boundary nothing at or before any anchor is trimmed |
| TrimSafety.NoticesNeverBlock | src/app/context-operations.ts:489-497 | dropping every notice from a plan's edits never changes whether the plan is refused |
| TrimSafety.TrimKeepsThinking | src/app/context-operations.ts:508-522 | after any planned trim is committed, every signed-thinking message has the same projected prefix, itself included, as before |
| TrimSafety.TrimRoundTrip | src/app/context-operations.ts:508-522 | after a committed trim every reference reads back as the exact original text if and only if all listed ids fit in a control record |
| TrimSafety.LongIdNeverReadable | src/app/context-operations.ts:734-746 | an id longer than a record accepts is never readable, whatever the branch holds |
| TrimLedger.CommitBalanced | src/app/context-operations.ts:694-724 | committing one trim keeps the books: the report grows by the plan's net saving |
| TrimLedger.CommitSpaced | src/app/context-operations.ts:524-531 | committing one trim keeps every automatic trim eight assistant messages away from each context change before it |
| TrimRuns.RoiIsSumOfPlans | src/app/context-operations.ts:694-724 | over every run of committed trims without foreign edits or rewinds, whatever checkpoints, other control records, compactions and messages come between them, trimRoi equals the sum of the plans' net savings, reported as zero when negative, and no entry is trimmed twice |
| TrimRuns.RoiIsExact | src/app/context-operations.ts:694-724 | when the retrieval lines fit the marker limit the report is exactly that sum, and at least 1,648 characters for every trimmed output |
| TrimRuns.AutomaticTrimsSpaced | src/app/context-operations.ts:524-531 | over every run, with any entries appended between the trims (foreign edits, rewinds, checkpoints, compactions), an automatic trim comes at least eight assistant messages after every trim, rewind record and compaction before it |
| RewindPlan.PlanContextRewind | src/app/context-operations.ts:636-685 | the rewind planner computes targets, archives, stranded outputs and refusal |
| RewindPlan.KeptResearchOutputs | src/app/context-operations.ts:561-586 | the outputs stranded inside kept batches, longest first |
| RewindSafety.RewindKeepsPairing | src/app/context-operations.ts:636-685 | a rewind of a paired context leaves it paired, with no orphan result and no unanswered call, if and only if the checkpoint does not cut a removable batch |
| RewindSafety.TurnBoundaryKeepsPairing | src/app/register-smart-context-tool.ts:511-521 | every accepted rewind to a checkpoint that was recorded with the fingerprint of its context and while no call was open leaves a paired context paired, whatever was edited since; the fingerprint only has to tell that context from what is now shown in its place |
| RewindSafety.StraddleExample | src/app/context-operations.ts:636-648 | for every host there is a paired branch, a call, a checkpoint recorded with the right fingerprint while the call is open, and its answer, on which the rewind is accepted and the committed context is unpaired |
| RewindSafety.RewindKeepsThinking | src/app/context-operations.ts:663-678 | every signed-thinking message an accepted rewind keeps has an identical prefix before and after |
| RewindSafety.RewindRoundTrip | src/app/context-operations.ts:649-685 | after a committed rewind every offered id reads back as the original text, if text only, when all offered ids fit a record; when one does not, none of them reads back |
| Revalidate.Idempotent | src/app/pending-slot.ts:45-121 | revalidating the returned candidate in an unchanged context returns it unchanged: no growth is charged twice |
| Revalidate.ChainCharged | src/app/pending-slot.ts:66-101 | along growing contexts the estimate a chain has charged is at least that of a direct revalidation at its end |
| Revalidate.ChainImpliesDirect | src/app/pending-slot.ts:45-121 | whatever a chain of revalidations through growing contexts accepts, a direct one at the end accepts, at no higher estimate |
| Revalidate.ChainIsStricter | src/app/pending-slot.ts:93-101 | the converse fails: growth that later disappeared stays charged, shown by two contexts |
| PendingSlot.PutIs | src/app/pending-slot.ts:192-203 | storing keeps one entry per session, the bound, and the newest session last |
| PendingSlot.TakeIs | src/app/pending-slot.ts:205-231 | what one consume leaves and serves: its own session's entry, in time or certified under the ceiling, and gone afterwards |
| PendingSlot.Slot.Set | src/app/pending-slot.ts:192-203 | the class's set refines the ordered timestamp map, and newest names the last surviving insertion |
| PendingSlot.Slot.Consume | src/app/pending-slot.ts:205-231 | the class's consume refines the map's take, with every outcome |
| PendingSlot.SlotSafety | src/app/pending-slot.ts:158-258 | over every run each stored payload is served at most once, to its own session only, never past its time to live without the probe's certificate, and the size stays bounded |
| Preparation.WindowOrdered | src/app/background-preparation.ts:29-53 | the start of the preparation window lies between the token floor and the apply gate |
| Preparation.CompactionImpliesCleanup | src/app/background-preparation.ts:56-77 | pressure to compact is always pressure to clean up as well, with both gates rounded up |
| Preparation.CostHasOneFate | src/app/background-preparation.ts:172-197 | over every interleaving of observe, cancel, take, notes and completions, a summary with metrics is in exactly one of: held, out with the host, recorded as discarded, and is recorded and handed off at most once |
| Preparation.QuiescentAccounted | src/app/background-preparation.ts:234-264 | once nothing is in force every produced cost was handed off for good or discarded exactly once |
| Preparation.Background.Observe | src/app/background-preparation.ts:218-264 | the controller's observe refines its step, with all admission gates |
| Preparation.Background.Finish | src/app/background-preparation.ts:250-263 | a completion refines its step, writing the cost of a superseded task |
| Preparation.Background.Take | src/app/background-preparation.ts:270-292 | take refines its step, with the order of its gates and the reason each records |
| Preparation.Background.NoteHandoffUnused | src/app/background-preparation.ts:294-299 | reporting a handed-off summary unused refines its step |
| CommitStore.CommitStore.Stage | src/app/compaction-commit-store.ts:51-63 | staging sweeps, refuses misnamed and duplicate runs, makes room and holds the candidate |
| CommitStore.CommitStore.Take | src/app/compaction-commit-store.ts:65-75 | taking a run gives it to its own session only; another session's candidate is dropped with a notice |
| CommitStore.CommitStore.ClearSession | src/app/compaction-commit-store.ts:82-91 | clearing drops exactly the session's candidates with one notice each |
| CommitStore.DropRun | src/app/compaction-commit-store.ts:35-41 | removing a run drops exactly its one entry |
| CommitDesk.RunConserves | src/index.ts:224-259 | over every run of the handlers staged equals held plus committed plus noticed, with multiplicity; commits are for the candidate's own session and the store stays within its cap |
| CommitDesk.NeverBoth | src/index.ts:580-601 | when run ids are not reused, no run is both committed and recorded as failed, whatever abort listeners, sweeps, foreign compactions and apply errors do |
| CommitDesk.ResubmissionExactly | src/index.ts:305-327 | a submission can end with its run both committed and failed if and only if that run id was submitted before |
| Extension.Handlers.OnBeforeCompact | src/index.ts:447-469 | the before-compact handler, calling the preparation, the pending slot and the commit store that it shares with the other handlers, refines the composed step and its answer |
| Extension.Handlers.OnRunFinished | src/index.ts:549-569 | the end of the fresh run: cancelling the host after an invalidation, or staging what the run put in the slot, refines its step |
| Extension.Handlers.InvalidateSession | src/index.ts:297-302 | invalidating a session ends the preparation, empties its slot and drops its staged summaries, as one step on the three objects |
| Extension.Handlers.StageForNativeApply | src/index.ts:305-327 | staging, the abort listener and the refusal path refine the submission step |
| Extension.Handlers.OnCompacted | src/index.ts:580-601 | a compaction ends the session's preparation, then commits the run's candidate for its own session, or, without a run id, clears the session as foreign |
| Extension.Handlers.OnCompactFailed | src/index.ts:666-672 | a failed compaction discards the session's candidates with its reason |
| Handoff.PivotHoldsBack | src/index.ts:448-448 | a pending pivot, and only that, cancels the host at once, and nothing is touched |
| Lifecycle.EveryCostOnce | src/index.ts:447-601 | over every run of preparation, slot and commit store together, whatever interleaves, the cost of a prepared summary is counted exactly once among: held by the preparation, recorded as discarded, held by the store, committed, noticed by the store, refused |
| Lifecycle.InstructionsGetFreshSummary | src/index.ts:450-569 | over every run, a request with its own instructions is given nothing at once, and the fresh run that follows is answered only with a summary put in the session's slot after the request |
| Lifecycle.CancelledExactly | src/index.ts:549-555 | over every run, the end of a fresh run cancels the host if and only if a pivot is pending or something invalidated a session while it ran |
| Handoff.PreparedLeavesOnce | src/index.ts:447-458 | a prepared summary taken by the before-compact handler is either recorded as discarded once and not staged, or submitted to the commit store and not recorded |
| Handoff.SuppliesExactlyStaged | src/index.ts:454-469 | the host is given a summary only if that summary was staged in this call, revalidated and not aborted, and it is the slot's when the slot had one |
| Delivery.DeliveryConserves | src/app/compaction-delivery.ts:72-143 | over every run with re-entrant callbacks each accepted request is counted exactly once among delivered, dropped, lost, held by a drain and queued; a gate's failed, running and queued requests stand in arrival order |
| Delivery.StartsOnlyWhenOpen | src/app/compaction-delivery.ts:72-98 | no callback is ever started while a scope is held or the gate is paused |
| Delivery.NothingLostExactly | src/app/compaction-delivery.ts:88-96 | no accepted request is lost if and only if no drain of the gate in force ends with failures while the captured context reports another session |
| Delivery.LossExample | src/app/compaction-delivery.ts:88-96 | a concrete run in which such an end loses a failed request that is neither requeued nor cleared |
| Delivery.UninterruptedDrain | src/app/compaction-delivery.ts:72-98 | an uninterrupted drain tries each queued request once in order, delivers all that succeed and leaves exactly the failed ones; with none left the gate is gone |
| Delivery.SentOrFailed | src/app/compaction-delivery.ts:79-87 | every request of an uninterrupted drain is either delivered or left, never both |
| DeliveryGate.Inbox.GoOn | src/app/compaction-delivery.ts:79-97 | the drain loop on gate objects refines its step up to the next callback |
| DeliveryGate.Inbox.CallbackDone | src/app/compaction-delivery.ts:82-86 | a callback's return or exception refines its step |
| DeliveryGate.Inbox.AcquireScope | src/app/compaction-delivery.ts:112-126 | taking a scope clears another session's gate, reuses or makes the gate and stops its timer |
| DeliveryGate.Inbox.OnDefer | src/app/compaction-delivery.ts:128-143 | an offered notification is accepted or refused by the handler's tests in their order |
| DeliveryGate.Inbox.DrainAlone | src/app/compaction-delivery.ts:72-98 | the loop as written, with callbacks that touch nothing, ends in the state of the same drain played event by event |
| Pivot.PivotProtocol | src/app/register-navigation.ts:181-226 | over every interleaving at most one pivot is queued or being applied, each reaches tree navigation at most once, and then only with the session at the leaf its own batch left, or at the origin for a person's pivot |
| Pivot.ContinuesOnce | src/app/register-navigation.ts:216-225 | a pivot's next message is sent at most once and only after its own navigation came back uncancelled |
| Pivot.NavigatesFromQueue | src/app/register-navigation.ts:325-384 | a step navigates at most once, with the pivot just taken from the queue or a person's new one: a cancelled pivot never navigates |
| Pivot.OneInFlight | src/app/register-navigation.ts:210-226 | without a session event at most the pivot being applied is in flight |
| Pivot.OverlapExample | src/app/register-navigation.ts:359-362 | with one, two navigations can be in flight together: a concrete run |
| Pivot.Navigation.OnTurnEnd | src/app/register-navigation.ts:325-336 | the turn-end handler refines its step |
| Pivot.Navigation.OnTimer | src/app/register-navigation.ts:340-347 | the timer refines its step, failed sends included |
| Pivot.Navigation.HandleCommand | src/app/register-navigation.ts:373-384 | the command handler refines its step and starts a navigation only through ApplyPivot |
| Pivot.Navigation.OnBeforeTree | src/app/register-navigation.ts:349-354 | the before-tree handler refines its step and answer |
| CacheLimit.EnforceMeetsLimit | src/app/anchor-cache.ts:302-334 | for every payload the enforced one has at most four markers, nested ones included, if and only if the hook's own markers are at most four; only markers of others are removed |
| CacheLimit.EvictableCount | src/app/anchor-cache.ts:237-247 | all that cannot be evicted: the hook's own markers and, if foreign, the last message marker |
| CacheLimit.DropInIs | src/app/anchor-cache.ts:317-328 | one nested drop removes exactly one foreign marker, or reports that there is none |
| CacheTail.EvictsInOrder | src/app/anchor-cache.ts:306-313 | the top-level markers that go are exactly the first ones of the eviction order, no more than needed |
| CachePayload.DeleteUnlists | src/app/anchor-cache.ts:262-274 | taking one marker away removes it from the marker list and keeps the order of the rest |
| CacheAnchor.LocatedIs | src/app/anchor-cache.ts:169-212 | the located block is in the newest matching message, and none is found only if no message matches |
| CacheAnchor.BridgeIs | src/app/anchor-cache.ts:215-223 | a bridge is an existing block strictly before the newest anchor's message |
| CacheRewrite.RewriteWithinLimit | src/app/anchor-cache.ts:90-138 | every rewritten payload says what it said before apart from its markers; it has at most four markers if and only if the hook's own are at most four, which holds when the hook had at most two before |
| CacheRewrite.OwnMarkersSurvive | src/app/anchor-cache.ts:122-136 | the anchor's marker and a placed bridge's survive with their lifetime |
| CacheRewrite.LongNeverFollowsShort | src/app/anchor-cache.ts:113-135 | no 1h marker comes after one that is not 1h in tools, system, messages order, over all top-level places of any payload |
| CacheRewrite.SentRequest | src/app/anchor-cache.ts:90-138 | what the hook sends, whenever it sends anything: the same text, the marker limit, the anchor marked, and no 1h marker after one that is not |
| CacheTail.TailSurvives | src/app/anchor-cache.ts:230-246 | for a fresh payload without nested markers the last message marker survives the rewrite, or the anchor is the last one |
| CacheRequest.Request.Apply | src/app/anchor-cache.ts:90-138 | the hook on the request object rewrites it to the specified payload, or returns without changing it |
| CacheRequest.Request.EnforceLimit | src/app/anchor-cache.ts:306-315 | both eviction loops, in place, terminate in the specified payload |
| CacheRequest.Locate | src/app/anchor-cache.ts:170-180 | the backward search returns the newest match |
| Budget.WireCapIsLargest | scripts/task-eval-case.ts:1025-1046 | a body is capped if and only if it names a cap and every one it names is a positive safe integer; the cap is then the largest of them |
| Budget.ResponseUsage | scripts/task-eval-case.ts:1077-1108 | per field the largest value of any frame, none if and only if no frame reports it |
| Budget.UsageIgnoresOrder | scripts/task-eval-case.ts:1072-1076 | the merged usage does not depend on the order or repetition of frames |
| Budget.BudgetHolds | scripts/task-eval-case.ts:1186-1270 | over every interleaving requests, estimated input and, in bounded mode, reserved output stay within the budget, the ledger's totals are the sums over the records, and a reported total is null if and only if every record's value is |
| Budget.BookedExactlyWhenFits | scripts/task-eval-case.ts:1186-1222 | a request to an allowed origin is booked if and only if it fits what the records leave; a refused one changes nothing |
| Budget.AccountedOnce | scripts/task-eval-case.ts:1257-1269 | a record whose usage was added never changes again |
| Budget.Guard.Fetch | scripts/task-eval-case.ts:1186-1238 | the synchronous reservation block refines its step |
| Budget.Guard.OnBodyRead | scripts/task-eval-case.ts:1156-1164 | the response's merged usage is written to its record and added to the ledger |
| Evidence.SearchPage | src/app/context-evidence.ts:115-137 | one search page: the outcomes of a run of sources within the source, character and match bounds, ended only by a bound |
| Evidence.PageUnique | src/app/context-evidence.ts:109-138 | the page from an offset is determined: any two results that meet the page's description are equal |
| Evidence.PagingIsComplete | src/app/context-evidence.ts:109-138 | following nextOffset visits every source exactly once in order, and with a positive limit takes at most as many pages as sources |
| Evidence.FollowOffsets | src/app/context-evidence.ts:109-138 | asking again from each nextOffset ends whenever a match is wanted, with a complete chain of pages and at most as many pages as sources |
| Evidence.ProgressExactly | src/app/context-evidence.ts:115-118 | a page advances if and only if sources are left and at least one match is wanted; a zero limit repeats its offset for ever |
| Evidence.AccountedFor | src/app/context-evidence.ts:120-129 | each source is scanned or reported unavailable; only one longer than the whole search bound is not scanned |
| Evidence.ReportedLineContainsMatch | src/app/context-evidence.ts:130-134 | opening the line reported for a text match starts at the line that contains the first occurrence |
| Evidence.ExcerptShowsMatch | src/app/context-evidence.ts:132-135 | the excerpt of a text match contains the whole match |
| Evidence.EvidencePage | src/app/context-evidence.ts:143-161 | the page loops return the specified span of the text, or refuse the request |
| Evidence.ReadOnIsRest | src/app/context-evidence.ts:159-160 | character pages read on from any offset concatenate to the rest of the text |
| Evidence.LineReadContinues | src/app/context-evidence.ts:146-160 | a line read within its bounds, finished by character pages, gives the text from that line on |
| SessionLines.SplitRoundTrip | src/app/artifact-storage.ts:86-120 | splitting at newlines loses nothing and no line holds a newline |
| SessionLines.SplitUnique | src/app/artifact-storage.ts:86-120 | it is the only such splitting of the content |
| SessionLines.ScanChunk | src/app/artifact-storage.ts:101-113 | one refilled buffer: complete lines are visited and the tail is carried as a copy |
| SessionLines.EachLine | src/app/artifact-storage.ts:86-120 | for every sequence of read sizes the lines visited are those of the whole content, or a prefix of them when the scan gives up, which it does if and only if a tail carried at the end of a read exceeds the bound; then some line exceeds it, and otherwise none exceeds it by more than a buffer |
| SessionLines.TailWithinLine | src/app/artifact-storage.ts:114-114 | what is carried over is the start of one line of the whole content |

## Left out

- Provider calls, files, processes, Docker, locks, notifications, status lines, tool rows: plumbing without protocol state.
- Host library internals: the session projection is modelled as "newest edit wins"; what the host hides behind a compaction entry is not.
- Tool classification, marker wording, call subjects, secret scrubbing and hashing are data or functions of the host; only their length bounds are used.
- InspectMemo.InspectionMemo.Inspect: does not capture that callers share one returned object; the program asks them not to change it.
- Preparation.Background.Observe: task objects are values in a list, so aliasing between closures is modelled by task numbers; the snapshot handed to the pipeline is not modelled.
- Preparation.Background.Take: the recorded metrics carry a cost or not; their preparation and waiting times are left out.
- Pivot.Navigation.HandleCommand: the random nonce is the operation's number, so two operations never share one; anchors, recall, labels, the editor text and the approval epoch are not modelled.
- Delivery.DeliveryConserves: safety and conservation only; a repeated before-compact event overwrites the stored release, so eventual delivery is not claimed. Within one step a context answers its session id the same way each time it is read.
- DeliveryGate.Inbox.AcquireScope: the recovery timer of an automatic request is a release event.
- CacheRequest.Request.Apply: blocks are values, so one block object appearing twice in a payload, or a marker kept from an earlier request, is not modelled beyond the owned flag; non-record blocks are not modelled.
- CacheTail.TailSurvives: stated without nested markers, since the nested pass may remove any foreign marker.
- CacheRewrite.LongNeverFollowsShort: compares top-level places; a nested marker after the anchor keeps the lifetime it had.
- Budget.ResponseUsage: JSON parsing and the event-line pattern are not modelled; a response is the sequence of values that parsed.
- Budget.BudgetHolds: elapsed times, request classes, the log and a ledger file that cannot be written after dispatch are left out; a write that fails before dispatch is the undispatched phase.
- Evidence.SearchPage: a source's text is fixed while its pages are followed; scope resolution across parent sessions and provenance listing are not modelled.
- SessionLines.EachLine: the visitor does not throw, and lines are bytes; decoding and the inventory's owner counts are left out.
- RewindPlan.PlanContextRewind: the report's wording and the summary of kept batches are one text of the host.
- TrimRuns.RoiIsSumOfPlans: runs with foreign edits or rewinds are left out, since both change what counts as trimmed; without fitting retrieval lines the report is the sum only down to its floor at zero.
- Lifecycle.EveryCostOnce: the fresh run between a request and its answer is any sequence of events; its thresholds, its lock and its timeout are not modelled, only what it puts in the slot.
- Extension.Handlers.OnCompacted: writing the continuity state, notifications and the settled trigger's own cooldown are not modelled.
- Mode tables, model routing, cache routing key, host cache tallies, replay reports: settings and reports that hold no protocol state.
- Release, pilot and benchmark scripts: they package and measure the program.

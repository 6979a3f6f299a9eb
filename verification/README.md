# Customer assistant: a verified model

A Dafny model of the assistant back end and proofs about it. Everything verifies with
`dafny verify dfyconfig.toml`.

The parts, hardest first:

* **Side-effect workflow** (`WorkflowStore`, `WorkflowInvariant`, `WorkflowTheorems`,
  `WorkflowOutcomes`, `WorkflowServices`). Action drafts, approval requests and escalations share database
  tables, and a request that decides one runs a guard that calls an external connector.
  Every request is a process with a program counter; each of its steps is one database or
  connector call. A run is any sequence of steps of any number of requests, so every
  interleaving, every crash (a process that is never scheduled again) and every retry (a
  new process) is a run. The theorems are about all runs. `WorkflowServices` holds the
  services as methods over mutable tables, each proved to leave exactly the tables and the
  outcome its process reaches when served alone; `WorkflowOutcomes` says what these are,
  case by case, from the tables and the request.
* **Migration preflight** (`Collecting`, `Preflight`, `PreflightRun`, `PreflightTheorems`,
  `PreflightMeaning`, `ReasonCodes`, `ScopedKeys`). `PreflightRun` is the five loops over
  shared counters, sets and multimaps, proved equal to a report that does not mention the order
  of reading; the theorems are about that report. `PreflightMeaning` says every counter and
  every reason in terms of the fields of the input.
* **Calendar ranges** (`CivilDates`, `DateText`, `TimeRanges`). Days and civil dates follow
  section 21.4.1 of ECMA-262, with a proved bijection between them.
* **Chunking** (`Chunking`, `ChunkingTheorems`, `ChunkingMeaning`). Text is a sequence of
  UTF-16 code units.
* **Message dispatch** (`Answers`, `MessageStore`, `Routing`, `Dispatch`). A send over mutable
  tables in which any store call may throw. `Routing` is the branch tree as a table, and says
  of the inputs alone which status, reason, rows and events a send must come to.
* **Tool contracts, access policies, retrieval and history** (`ToolContract`, `Policies`,
  `PolicyMeaning`, `Retrieval`, `History`, `HistoryTies`).

`Prelude`, `Json`, `Texts` and `Orders` hold what the others share: optional values, JSON
values, JavaScript trimming and searching, and sorting.

Store assumptions, all stated in `WorkflowStore`: a conditional `updateMany` is an atomic
compare-and-set, a `$transaction` is all-or-nothing, and the key columns of ToolCall,
ApprovalRequest and ActionDraft are unique per customer (prisma/schema.prisma:486, 646, 686).

Results that differ from what one might expect:

* An approved or rejected approval request, and a resolved escalation, is always decided by
  its own requester: the audit writer's session check rolls back everyone else's decision
  (`WorkflowTheorems.ApproverIsRequester`).
* The contract gate does not compare an id, name or version that was recorded empty;
  `ToolContract.EmptyVersionIsNotCompared` gives an input, and `DraftGateIff` and
  `ApprovalGateIff` say exactly when the gate passes.
* The range of this week is out of order exactly in the days after 9999-12-26, when its end is
  printed as `+010000-01` and does not read back (`TimeRanges.RangesOrderedIff`,
  `TimeRanges.RangeReadsBack`, `TimeRanges.OutOfOrder`).
* A request that crashes after reserving its key and before the connector call is taken for a
  duplicate when retried: the item is decided and the connector never called
  (`WorkflowTheorems.CrashBeforeCall`). A ToolCall was never sent exactly when its creator still
  stands before that call (`NeverSentIff`, `DecidedUnsentIff`); the rows cannot tell
  (`RowCannotTell`).
* Pages are ordered by creation time alone. When two messages share theirs, a reader may miss
  one (`HistoryTies.CompleteIff`, `HistoryTies.TieBreaks`).
* A scoped key shares its group with a key of another identity exactly when a NUL in one of its
  parts could be the joint instead and leave no part blank: one in the customer or source key
  behind a non-blank text of that part, or one in the source key, version or idempotency key
  before a non-blank text (`ScopedKeys.SharedIff`). The customer of an idempotency key counts,
  its record type never.
* The mismatch branch of the preflight's mapping check is dead, and so are the clarification
  branches of a send behind its first gate.

## Model

| member | source | states |
|---|---|---|
| WorkflowTheorems.ConnectorAtMostOncePerKey | src/approvals/side-effect-execution-guard.service.ts:92-162 | in every run no two connector calls share a customer and an idempotency key |
| WorkflowTheorems.ExecutedIsBackedOnce | src/approvals/action-draft.service.ts:101-133 | an executed draft or approved request carries a non-empty key held by exactly one ToolCall of its customer, which has its session and message and was created for it |
| WorkflowTheorems.DuplicateIsOfSameItem | src/approvals/side-effect-execution-guard.service.ts:94-116 | a ToolCall reported as a duplicate was created for the very item being decided, with the request's key |
| WorkflowTheorems.KeyOfOtherItemRefused | src/approvals/side-effect-execution-guard.service.ts:100-107 | a key whose ToolCall belongs to another item ends the request as not found and writes nothing |
| WorkflowTheorems.MessageBacksOneItem | src/assistant/message/assistant-message.service.ts:90-364 | two different items of any kinds never share their assistant message |
| WorkflowTheorems.ReplayNeverActs | src/approvals/approval-request.service.ts:135-165 | a request that loaded its item already decided never creates a ToolCall, calls the connector or commits, whatever runs beside it |
| WorkflowTheorems.ReplayFindsItsCall | src/approvals/side-effect-execution-guard.service.ts:92-116 | whatever runs beside it, a replay's lookup finds the ToolCall of its own item and key and changes nothing: always the duplicate branch |
| WorkflowTheorems.ReplayEnds | src/approvals/side-effect-execution-guard.service.ts:108-116 | and its next step writes one skipped row and ends as replayed |
| WorkflowTheorems.StatusIsFold | src/approvals/action-draft.service.ts:179-204 | folding an item's committed audit rows in order gives exactly its current status |
| WorkflowTheorems.OneDecisionRowPerDecision | src/approvals/approval-request.service.ts:190-212 | an item has one decision row if it left its initial status and none otherwise, so losers of the compare-and-set leave no row |
| WorkflowTheorems.DecidedForever | src/approvals/escalation-request.service.ts:107-129 | once an item has left its initial status its row never changes again in any continuation |
| WorkflowTheorems.ItemsOnlyMove | src/approvals/action-draft.service.ts:288-299 | every action leaves an item's row as it is or lets it leave its initial status once |
| WorkflowTheorems.RowsCarrySessionOwner | src/audit/audit-writer.service.ts:57-79 | every audit row carries the customer, organization, host app and actor that own the session of its item |
| WorkflowTheorems.ApproverIsRequester | src/approvals/approval-request.service.ts:287-309 | an approved, rejected or resolved item was decided by its own requester |
| WorkflowTheorems.RepeatWithSameKey | src/approvals/action-draft.service.ts:101-129 | repeating a decision with its own key, gates passing, adds one skipped row and changes nothing else |
| WorkflowTheorems.RepeatWithOtherKey | src/approvals/approval-request.service.ts:135-165 | repeating a decision with another key changes nothing, and ends in a conflict exactly for the callers whose load of the item succeeds |
| WorkflowTheorems.RetryRecovers | test/integration/customer-workflow-recovery.spec.ts:22-74 | after a finalization lost once the ToolCall is reserved, a retry with the same key decides the item without another ToolCall or connector call; a ToolCall that has a result has its connector call on record |
| WorkflowTheorems.ResultsWereCalled | src/approvals/side-effect-execution-guard.service.ts:118-162 | in every run a ToolCall that is no longer in progress was sent to the connector |
| WorkflowTheorems.NeverSentIff | src/approvals/side-effect-execution-guard.service.ts:118-162 | in every run a keyed ToolCall was never sent to the connector exactly when the process that created it still stands, crashed or not, before its connector step; no other process ever stands there |
| WorkflowTheorems.DecidedUnsentIff | src/approvals/side-effect-execution-guard.service.ts:92-162 | so an executed or approved item has no connector call with its key exactly when the creator of its ToolCall still stands before that step |
| WorkflowTheorems.RowCannotTell | src/approvals/side-effect-execution-guard.service.ts:118-162 | two runs leave the same tables, the ToolCall in progress in both, and only one has called the connector, so no condition on the rows can tell |
| WorkflowTheorems.CrashBeforeCall | src/approvals/side-effect-execution-guard.service.ts:92-162 | a crash between reserving the key and calling the connector, then a retry, decides the item with no connector call at all |
| WorkflowTheorems.FirstDecision | src/approvals/side-effect-execution-guard.service.ts:118-210 | a first decision with a free key adds one ToolCall and one connector call and decides the item, whether or not the connector succeeded |
| WorkflowTheorems.FinishIsRun | src/approvals/side-effect-execution-guard.service.ts:56-211 | a request served alone is one of the interleavings the theorems speak about |
| WorkflowServices.Workflow.Execute | src/approvals/side-effect-execution-guard.service.ts:56-116 | the guard's parent check, gates and lookup leave the tables its process leaves; with a refused gate or no key nothing is reserved or called, and exactly then, the parents found, it ends refused |
| WorkflowServices.Workflow.ExecuteAdmitted | src/approvals/side-effect-execution-guard.service.ts:92-116 | the replay lookup returns the existing call, refuses a foreign one, or goes on to run the tool |
| WorkflowServices.Workflow.RunTool | src/approvals/side-effect-execution-guard.service.ts:118-211 | reserves the key, calls the connector once, records the result and its audit row, and keeps keys unique |
| WorkflowServices.Workflow.Transition | src/approvals/action-draft.service.ts:288-299 | the compare-and-set and the audit row are committed together or the tables stay as they were |
| WorkflowServices.Workflow.AuditContextFound | src/audit/audit-writer.service.ts:57-98 | finds the audit context exactly when session and message belong to the acting owner |
| WorkflowServices.Workflow.LoadVisible | src/approvals/approval-request.service.ts:287-309 | loads an item exactly when the caller's customer owns it, its session matches and the actor may see it |
| WorkflowServices.Workflow.ConfirmDraft | src/approvals/action-draft.service.ts:97-210 | a confirmation ends in exactly the tables and outcome of its process, which the rows of `WorkflowOutcomes` say |
| WorkflowServices.Workflow.CancelActionDraft | src/approvals/action-draft.service.ts:212-243 | a cancellation ends in exactly the tables and outcome of its process |
| WorkflowServices.Workflow.ApproveRequest | src/approvals/approval-request.service.ts:130-218 | an approval ends in exactly the tables and outcome of its process, which the rows of `WorkflowOutcomes` say |
| WorkflowServices.Workflow.RejectRequest | src/approvals/approval-request.service.ts:220-251 | a rejection ends in exactly the tables and outcome of its process |
| WorkflowServices.Workflow.CancelRequest | src/approvals/approval-request.service.ts:253-285 | as above, and the separate cancel right can never be what refuses |
| WorkflowServices.Workflow.PendingAndFresh | src/approvals/approval-request.service.ts:422-432 | holds exactly for a pending request that is not past its expiry |
| WorkflowServices.Workflow.DecideEscalation | src/approvals/escalation-request.service.ts:101-166 | resolving and cancelling end in exactly the tables and outcome of their process |
| WorkflowServices.Workflow.CreateItem | src/approvals/action-draft.service.ts:26-89 | a plan of another customer or session is not found and writes nothing; else creating an item ends in exactly the tables of its process, and writes nothing when it fails |
| WorkflowServices.NotLoaded | src/approvals/action-draft.service.ts:245-267 | a request whose item is missing or hidden ends as not found and writes nothing |
| WorkflowOutcomes.TurnedAwayDoesNothing | src/approvals/approval-request.service.ts:130-170 | a request without the authority, whose item is not found, decided otherwise or past its expiry ends forbidden, not found or in a conflict, by conditions on the item's row and the caller, and changes nothing |
| WorkflowOutcomes.GuardRefuses | src/approvals/side-effect-execution-guard.service.ts:66-89 | the requester of a found, undecided or executed item who confirms or approves without a key or with a gate that refuses ends refused: no ToolCall, no call, every item as it was, and one denial row, behind a permission row exactly when the precheck refused |
| WorkflowOutcomes.RefusedNeverActs | src/approvals/side-effect-execution-guard.service.ts:66-89 | in every run a process, once its gate refuses, never again touches a ToolCall, the connector or an item, whatever runs beside it |
| WorkflowOutcomes.GuardNeedsOwnSession | src/approvals/side-effect-execution-guard.service.ts:56-64 | a confirmation or approval that gets to its guard ends as not found and writes nothing when anyone but the requester sent it |
| WorkflowOutcomes.DecidesWithTool | src/approvals/side-effect-execution-guard.service.ts:118-210 | a first decision with a free key: the whole of the tables afterwards, the ToolCall, the call, both audit rows and the decided item, field by field |
| WorkflowOutcomes.DecidesWithoutTool | src/approvals/escalation-request.service.ts:101-166 | rejecting, resolving and cancelling: for the requester the item's row with its new status, decider and event, and for others a storage error that leaves the tables alone |
| WorkflowOutcomes.TransactionIs | src/approvals/approval-request.service.ts:190-212 | in every run the deciding transaction conflicts iff the item has been decided since, is rolled back iff the session is not the caller's or another item of the kind has the key, and else writes exactly the decided row and its audit row |
| WorkflowOutcomes.NewItemIs | src/approvals/action-draft.service.ts:26-89 | a new item has its kind's status, event and lifetime, its reply, and its requester, or nothing is stored |
| WorkflowOutcomes.SendStepIs | src/assistant/message/assistant-message.service.ts:50-95 | every step of a send up to its item: the session is the caller's and passes, each message is stored under a new id, and a draft or approval request, unlike an escalation, needs its tool's gate |
| ToolContract.ExtractInvertsPersist | src/approvals/side-effect-tool-contract.resolver.ts:69-80 | reading a stored contract back yields all eight fields of the tool it was written from |
| ToolContract.ResolvedIff | src/approvals/side-effect-tool-contract.resolver.ts:42-66 | a new item gets the registered tool iff it has a side effect, the risk asked for and exactly the flags of the flow; without one it is not executable |
| ToolContract.DraftGateIff | src/approvals/side-effect-execution-guard.service.ts:324-371 | for a tool the resolver accepted, a draft's gate passes iff the latest tool agrees on the eight fields (texts recorded empty excepted) |
| ToolContract.ApprovalGateIff | src/approvals/approval-request.service.ts:501-543 | the same for an approval request, whose operation is always found again in its summary |
| ToolContract.EmptyVersionIsNotCompared | src/approvals/side-effect-execution-guard.service.ts:324-345 | an input whose recorded version is empty passes although the versions differ |
| PreflightRun.Evaluate | scripts/customer-ownership-migration-preflight.ts:52-119 | the run over mutable counters computes the order-free report, for malformed input too; the rows of `PreflightMeaning` say what that report is |
| PreflightRun.Tally.ValidateCustomerRoots | scripts/customer-ownership-migration-preflight.ts:135-146 | collects the distinct non-blank roots and counts one finding for every other entry |
| PreflightRun.Tally.ValidateMappingEntries | scripts/customer-ownership-migration-preflight.ts:148-176 | indexes exactly the accepted entries of every key, in order, and counts every rejected one |
| PreflightRun.Tally.ValidateRows | scripts/customer-ownership-migration-preflight.ts:74-113 | counts each row as mapped or with its one finding and collects the blocked document keys; the finding is what `PreflightMeaning.RowFindingIs` says |
| PreflightRun.Tally.CountRelationConflicts | scripts/customer-ownership-migration-preflight.ts:197-205 | counts each relation that is not inside one customer |
| PreflightRun.Tally.CountScopedKeyConflicts | scripts/customer-ownership-migration-preflight.ts:207-225 | counts the keys without a group and the groups used more than once |
| PreflightRun.Tally.MakeReport | scripts/customer-ownership-migration-preflight.ts:238-253 | the report's counters, readiness and reasons are those of the findings |
| PreflightTheorems.ReadyIff | scripts/customer-ownership-migration-preflight.ts:238-253 | ready iff no blocking reason, iff the input is well formed and roots, rows, mappings, relations and scoped keys are all sound |
| PreflightTheorems.ListedIff | scripts/customer-ownership-migration-preflight.ts:250-250 | a reason is reported exactly when some finding gave it |
| PreflightTheorems.KeyInjective | scripts/customer-ownership-migration-preflight.ts:271-273 | the NUL-separated key of a row of a known type determines the row |
| ScopedKeys.SharedIff | scripts/customer-ownership-migration-preflight.ts:227-236 | a scoped key shares its group with a key of another identity exactly when it is loose: a NUL in the customer or source key has a non-blank text before it inside that part, or one in the source key, version or idempotency key has a non-blank text after it |
| ScopedKeys.GroupInjective | scripts/customer-ownership-migration-preflight.ts:227-236 | two keys in one group with no NUL in customer or source key have the same kind, customer, source or record type, and version or key |
| ScopedKeys.NulMovesTheCut | scripts/customer-ownership-migration-preflight.ts:229-231 | for example a NUL behind a text in the customer of a knowledge key: the key is loose and shares its group with one of the customer named before the NUL |
| PreflightTheorems.MismatchIsDead | scripts/customer-ownership-migration-preflight.ts:183-186 | the mapping check never reports a resource mismatch for an accepted entry |
| PreflightTheorems.OrderDoesNotMatter | scripts/customer-ownership-migration-preflight.ts:69-118 | reordering any of the five lists leaves the report unchanged |
| PreflightTheorems.Conservation | scripts/customer-ownership-migration-preflight.ts:74-113 | mapped, unmapped, ambiguous, invalid-customer and invalid-policy counts add up to rows, rejected roots and rejected entries |
| PreflightTheorems.UntargetedAndAmbiguous | scripts/customer-ownership-migration-preflight.ts:86-98 | unmapped rows are the known rows no mapping targets, ambiguous rows those that more than one does, whatever keys the strings hold |
| PreflightTheorems.MappedAreSound | scripts/customer-ownership-migration-preflight.ts:100-113 | mapped rows are the known rows that exactly one mapping targets, with a listed root, an approval and, for documents, a policy |
| PreflightTheorems.BlockedDocuments | scripts/customer-ownership-migration-preflight.ts:275-277 | blocked rows are the distinct keys of documents that failed their check |
| PreflightMeaning.InputIs | scripts/customer-ownership-migration-preflight.ts:121-127 | the input is read iff its five fields are arrays, and these are what is read |
| PreflightMeaning.CountersAre | scripts/customer-ownership-migration-preflight.ts:52-119 | mapped rows, bad policies, bad customers and relation conflicts are counts of the positions at which the fields are so: a bad policy is a document whose only mapping is for a root and signed off but has a policy that is not accepted; a bad customer is a repeated or blank root, a rejected mapping, an unreadable or unknown row, or one whose only mapping lacks a root or an approval |
| PreflightMeaning.KeyConflictsAre | scripts/customer-ownership-migration-preflight.ts:207-225 | uniqueness conflicts are the keys of no group and the groups more than one key has |
| PreflightMeaning.GroupedIff | scripts/customer-ownership-migration-preflight.ts:227-236 | a key has a group iff its fields are those of one of the two kinds |
| PreflightMeaning.RowFindingIs | scripts/customer-ownership-migration-preflight.ts:74-113 | a row is given a reason iff its fields have that reason's cause, the first defect of its only mapping included, under that reason's counter, and none iff it is mapped |
| PreflightMeaning.ReasonsAre | scripts/customer-ownership-migration-preflight.ts:135-195 | every reason is reported iff some root, mapping, row, relation or key has its cause, said of the fields |
| PreflightMeaning.BlockedAre | scripts/customer-ownership-migration-preflight.ts:275-277 | the blocked keys are those of the documents without exactly one flawless mapping |
| PreflightMeaning.KnownTypesAre | scripts/customer-ownership-migration-preflight.ts:10-15 | the retained types are the twenty named |
| PreflightMeaning.UnreadableCounts | scripts/customer-ownership-migration-preflight.ts:51-54 | an input that cannot be read is reported as one bad customer and not ready |
| ReasonCodes.ReasonsInOrder | scripts/customer-ownership-migration-preflight.ts:250-250 | the report lists its reasons strictly in the order of their codes |
| CivilDates.CivilRoundTrip | src/query-understanding/time-range.parser.ts:55-58 | every day is the day made of its own year, month and date |
| CivilDates.CivilOfMade | src/query-understanding/time-range.parser.ts:31-32 | a day made of a date in range has that year, month and date |
| CivilDates.CivilOrder | src/query-understanding/time-range.parser.ts:89-91 | days are ordered as their year, month and date |
| CivilDates.NextDay | src/query-understanding/time-range.parser.ts:60-64 | the day after has the next date of the Gregorian calendar, the lengths of the months and the leap years written out; with `Epoch` and `NewYear` (1 January 1970, a Thursday, is day 0) this says what every day's date is |
| CivilDates.ThreeMonthsBack | src/query-understanding/time-range.parser.ts:66-70 | three months back, overflow included, is the length of the three months before: 89 to 92 days |
| CivilDates.MondayIsMonday | src/query-understanding/time-range.parser.ts:20-21 | the computed start of the week is the Monday on or before today |
| DateText.DateOnlyReads | src/query-understanding/time-range.parser.ts:89-91 | a printed date of a year from 0 on reads back as its day exactly up to year 9999 |
| DateText.DateOnlyIs | src/query-understanding/time-range.parser.ts:89-91 | a date of a four-digit year is printed as its ten characters, digit by digit |
| DateText.DateOnlyOrder | src/query-understanding/time-range.parser.ts:89-91 | printed dates of the years 0 to 9999 compare as their days do |
| TimeRanges.AddDays | src/query-understanding/time-range.parser.ts:60-64 | returns a fresh date exactly that many days later |
| TimeRanges.AddMonths | src/query-understanding/time-range.parser.ts:66-70 | returns a fresh date with the month moved and carried over |
| TimeRanges.ToLocalDate | src/query-understanding/time-range.parser.ts:50-58 | midnight of the local calendar day, rebuilt through Date.UTC |
| TimeRanges.LocalDayIsCalendarDay | src/query-understanding/time-range.parser.ts:50-58 | the rebuilt day is the calendar day itself, except exactly in the years 0 to 99 |
| TimeRanges.ParseTimeRanges | src/query-understanding/time-range.parser.ts:8-48 | for each of the six phrases, in order, the result holds its range iff the text has the phrase: under its literal name, from the first to the last day of today, yesterday, the Monday-to-Sunday week, the week before, the month, or the three months back, printed; today is the calendar day in the zone (years 0 to 99 excepted, and said); `最近` with none of them, and only that, asks back |
| TimeRanges.FoundHas | src/query-understanding/time-range.parser.ts:12-35 | every expression in the text yields its range |
| TimeRanges.FoundOnly | src/query-understanding/time-range.parser.ts:12-35 | every range comes from an expression in the text |
| TimeRanges.RangeMeans | src/query-understanding/time-range.parser.ts:12-35 | a range runs over exactly the days its expression means: the week, the week before, the month, the three months |
| TimeRanges.RangeReadsBack | src/query-understanding/time-range.parser.ts:72-87 | for years 1970 to 9999 the printed start reads back as the first day meant, and the end as the last, except exactly the end of this week after 9999-12-26 |
| TimeRanges.EndYears | src/query-understanding/time-range.parser.ts:12-35 | for years 1970 to 9999 both ends have four-digit years, except exactly the end of this week after 9999-12-26 |
| TimeRanges.RangesOrderedIff | src/query-understanding/time-range.parser.ts:12-35 | for years 1970 to 9999 all ranges have start <= end, except this week's after 9999-12-26 |
| TimeRanges.OutOfOrder | src/query-understanding/time-range.parser.ts:19-22 | on 9999-12-27 the range of this week ends before it starts |
| Chunking.SplitBySize | src/retrieval/knowledge-chunking.service.ts:63-73 | computes the trimmed, non-empty slices, or the whole text when it fits |
| Chunking.ChunkDocument | src/retrieval/knowledge-chunking.service.ts:21-52 | rejects a bad parent, else numbers the pieces of every body paragraph under the last heading |
| ChunkingTheorems.ParagraphsKeepText | src/retrieval/knowledge-chunking.service.ts:24-27 | paragraphs hold all of the document but white space |
| ChunkingTheorems.NoBreakInside | src/retrieval/knowledge-chunking.service.ts:25-25 | no paragraph, trimmed as it is, has two newlines side by side |
| ChunkingMeaning.SplitIs | src/retrieval/knowledge-chunking.service.ts:25-25 | the document is the parts woven with gaps of two or more newlines, as long as they can be, and no part has two in a row |
| ChunkingTheorems.PiecesKeepText | src/retrieval/knowledge-chunking.service.ts:63-73 | cutting to size loses nothing but white space |
| ChunkingMeaning.SlicesAre | src/retrieval/knowledge-chunking.service.ts:69-71 | slice k runs from k times the size to the next multiple or the end, and there are as many as the length divided by the size, rounded up |
| ChunkingTheorems.ChunksKeepText | src/retrieval/knowledge-chunking.service.ts:29-51 | the chunks hold the same text as the paragraphs that are not headings, in order |
| ChunkingTheorems.ChunkIsProper | src/retrieval/knowledge-chunking.service.ts:38-48 | every chunk is trimmed, not empty, within the size, at its index and under the heading before its paragraph |
| ChunkingTheorems.ChunkComesFrom | src/retrieval/knowledge-chunking.service.ts:32-48 | every chunk is a piece of one body paragraph |
| ChunkingTheorems.LastHeadingIsLast | src/retrieval/knowledge-chunking.service.ts:33-36 | the heading is that of the last heading paragraph, with none after it |
| ChunkingTheorems.NoHeadingIff | src/retrieval/knowledge-chunking.service.ts:30-36 | there is no heading exactly when no paragraph before is one |
| ChunkingTheorems.HeadingIsProper | src/retrieval/knowledge-chunking.service.ts:55-61 | a heading paragraph always leaves a trimmed, non-empty heading |
| ChunkingMeaning.HeadingIs | src/retrieval/knowledge-chunking.service.ts:55-57 | a heading is, on its characters, one to three hashes and white space, or U+7B2C with U+7AE0 or U+7BC0 after at least one more character of the line |
| ChunkingMeaning.HeadingNameIs | src/retrieval/knowledge-chunking.service.ts:59-61 | the name of a heading is what follows its hashes and the white space behind them, or all of it |
| ChunkingMeaning.ParentIs | src/retrieval/knowledge-access-policy.types.ts:69-78 | the parent has both ids without the white space around them, and the document's customer, if given, is the same |
| ChunkingMeaning.TokensAre | src/retrieval/knowledge-chunking.service.ts:75-79 | the token count is the number of places where a run of word characters starts plus the number of CJK characters |
| ChunkingMeaning.PlainWord | src/retrieval/knowledge-chunking.service.ts:76-76 | a word is one token |
| ChunkingMeaning.CjkRun | src/retrieval/knowledge-chunking.service.ts:77-77 | a run of CJK characters has as many tokens as characters |
| ChunkingTheorems.PieceTokens | src/retrieval/knowledge-chunking.service.ts:75-79 | token counts of the pieces add up to the paragraph's plus one per cut inside a word |
| ChunkingTheorems.TokensBounded | src/retrieval/knowledge-chunking.service.ts:63-79 | hence at least the paragraph's count and at most one more per cut |
| ChunkingTheorems.CeilDivIs | src/retrieval/knowledge-chunking.service.ts:69-71 | the number of slices used in that bound is the length divided by the size, rounded up |
| Dispatch.SendMessage | src/assistant/message/assistant-message.service.ts:49-935 | a completed send uses a fresh message, and from its inputs alone: the first gate asks back, or medium, high and critical risk wait for confirmation, approval and escalation, or documents answer iff the retrieval did not fail and one of the first two candidates scores at least 0.35, or the tool answers iff it completed with fields and an id and without conflict; each refusal has its reason, review source and urgency; the message, session state, evidence, run, candidates, audit row and events say the same, and nothing else is stored about the message; earlier rows and other sessions stay as they were; a send that throws leaves no answer row; if no call throws it completes |
| Dispatch.SettledOnce | src/assistant/message/assistant-message.service.ts:1015-1025 | hence exactly one decision row is about a message that is not waiting on an item, none about one that is, and an answer cites all of its evidence |
| Dispatch.Receive | src/assistant/message/assistant-message.service.ts:50-95 | stores the user's message and a pending assistant message under a fresh id, and touches no other message |
| Dispatch.Answer | src/assistant/message/assistant-message.service.ts:97-935 | each branch completes with the outcome the table gives, or throws; `Routing.RouteIsRight` says what the table gives |
| Dispatch.AskForClarification | src/assistant/message/assistant-message.service.ts:98-183 | the clarification branch stores exactly its decision and grounding check and waits for clarification |
| Dispatch.RequireItem | src/assistant/message/assistant-message.service.ts:185-364 | the three item branches store exactly one item, no decision, and wait for it |
| Dispatch.AnswerFromDocuments | src/assistant/message/assistant-message.service.ts:366-556 | stores the run and its candidates, answers with evidence for exactly the selected chunks, and else refuses with a review item |
| Dispatch.CompleteRetrievalFailure | src/assistant/message/assistant-message.service.ts:958-1042 | a retrieval that threw is refused as a tool failure, whatever rows it left |
| Dispatch.AnswerFromTool | src/assistant/message/assistant-message.service.ts:558-935 | answers with the tool's record as the only evidence and without conflict; everything else is refused with a review item |
| Dispatch.AttachDocuments | src/assistant/message/assistant-message.service.ts:471-491 | one evidence reference for every selected candidate, in order, none skipped |
| Dispatch.RefuseAndSend | src/assistant/message/assistant-message.service.ts:569-687 | a refusal stores exactly its decision, grounding check and review item, concludes, and sends the events of its kind |
| Dispatch.AnswerAndSend | src/assistant/message/assistant-message.service.ts:873-935 | an answer stores exactly its decision and a covered grounding check over the evidence, concludes and sends |
| Dispatch.Conclude | src/assistant/message/assistant-message.service.ts:423-454 | completes the message, sets the session's state and writes the audit row last, or leaves no audit row |
| Routing.AsksIs | src/assistant/answer/no-answer-gate.service.ts:33-56 | the first gate asks iff a low-risk plan clarifies, has a confidence below 0.7 or any need, or another plan's first blocking need has one of the four reasons and the page has no entity or several rows |
| Routing.RouteIsRight | src/assistant/message/assistant-message.service.ts:97-935 | the table's status, reason, session state and evidence are the right ones for its inputs, each said on its own and both ways |
| Routing.StreamIsRight | src/assistant/sse/assistant-sse-event.builder.ts:14-276 | the events of every outcome are the literal list of their data |
| Routing.ReviewIsRight | src/feedback/review-item.service.ts:119-120 | the review item of each reason has its source and is urgent iff permission was denied or the tool failed |
| Routing.ChunksAre | src/retrieval/retrieval.service.ts:64-70 | selected are, in order, those of the first two candidates that score at least 0.35 |
| Dispatch.SettledIsRight | src/assistant/message/assistant-message.service.ts:97-935 | the rows a send leaves, decision, grounding check, review item, evidence, run and candidates, are those its inputs call for |
| Routing.LateBranchesDoNotClarify | src/assistant/answer/no-answer-gate.service.ts:33-43 | a low-risk plan behind the first gate never asks for clarification |
| MessageStore.Store.Decide | src/assistant/answer/answer-decision.service.ts:16-60 | adds exactly the decision its evidence calls for and a grounding check over the cited evidence, for every status |
| MessageStore.Store.RecordSafeDecision | src/assistant/answer/answer-decision.service.ts:62-121 | adds exactly a decision with its status and reason and an uncovered grounding check |
| MessageStore.Store.CreateReviewItem | src/feedback/review-item.service.ts:58-66 | opens a review item only for a stored decision of that message and status, and adds nothing else |
| MessageStore.Store.UpdateOrCreate | src/assistant/context/assistant-context-state.service.ts:159-185 | afterwards the session has a context row and all of them say the state; other sessions keep theirs |
| MessageStore.Store.CompleteMessage | src/assistant/message/assistant-message.repository.ts:62-81 | completes exactly that message, which must exist |
| MessageStore.Store.RunDocumentRetrieval | src/retrieval/retrieval.service.ts:55-167 | fails iff the message is not of the session, a call throws or some candidate has no parents, leaving at most a run without evidence and candidates; else stores the run and one row per candidate with its rank, and returns the selected ones |
| MessageStore.Store.AttachDocumentChunk | src/evidence/evidence-ref.service.ts:105-216 | stores the reference only for a selected candidate of the message's own run whose chunk is there |
| MessageStore.Store.MarkSelectedEvidence | src/retrieval/retrieval.service.ts:169-206 | writes the evidence into the run iff the ids are distinct and all of the run's message |
| Answers.BuildMessageEvents | src/assistant/sse/assistant-sse-event.builder.ts:134-247 | the events of the tool's lifecycle, the delta and the final event, numbered by the counter from 1 |
| Answers.BuildAnswerOnlyEvents | src/assistant/sse/assistant-sse-event.builder.ts:249-276 | a delta and a final event, numbered 1 and 2 |
| Answers.BuildItemEvents | src/assistant/sse/assistant-sse-event.builder.ts:14-132 | an item event and a final event, numbered 1 and 2 |
| Answers.SseSequence.Next | src/common/sse/sse-event.helper.ts:4-11 | returns the next number and keeps it |
| Answers.StreamIsProper | src/assistant/sse/assistant-sse-event.builder.ts:134-276 | every stream is numbered 1 to n, of one message, with its only final event last |
| Retrieval.AssertCandidateParents | src/retrieval/retrieval.service.ts:221-251 | passes iff every candidate has its document and chunk |
| Retrieval.ScoreBounds | src/retrieval/deterministic-retrieval.provider.ts:85-93 | scores lie in 0 to 1, are 1 when all terms match and 0 only when practically none does |
| Retrieval.RowOrderDoesNotMatter | src/retrieval/deterministic-retrieval.provider.ts:79-111 | the result does not depend on the order of the rows |
| Retrieval.ReturnedAreBest | src/retrieval/deterministic-retrieval.provider.ts:108-111 | the result is the sorted top of the eligible rows; nothing left out comes before it (what eligible and before mean is in the row of `RetrievedAre`) |
| Retrieval.RetrievedAre | src/retrieval/deterministic-retrieval.provider.ts:79-111 | each returned candidate is that of a row in whose lower-cased title, heading and content terms stand, at least half a ten-thousandth of them, and one discriminator if there are any; its score is the share of terms found, to the nearest ten-thousandth; each such row is returned or loses to every returned one by a lower score or an equal one and a later id; six unless a limit is given |
| Retrieval.MatchedIs | src/retrieval/deterministic-retrieval.provider.ts:84-84 | the matches are the positions whose lower-cased term stands somewhere in the text |
| Retrieval.RerankKeeps | src/retrieval/deterministic-retrieval.provider.ts:123-133 | reranking the result leaves it unchanged |
| Retrieval.SelectedIsPrefix | src/retrieval/retrieval.service.ts:64-70 | the selected candidates are a prefix of the ranks |
| History.PageIs | src/assistant/history/assistant-history.service.ts:23-38 | a page of a listing is the messages right after its cursor, as many as the limit or all that are left, and the next cursor is its last message iff more follow |
| History.NoPageIff | src/assistant/history/assistant-history.service.ts:24-30 | there is no page exactly for a non-empty cursor that is no message of the session |
| History.WalkVisitsAll | src/assistant/history/assistant-history.service.ts:85-85 | following the cursor through one listing ends and visits every message once, in order |
| History.PagesAreFull | src/assistant/history/assistant-history.service.ts:23-38 | all pages but the last hold exactly the limit, clamped to 1 to 50 |
| History.ClampIs | src/assistant/history/assistant-history.service.ts:23-23 | a limit from 1 to 50 is kept, a smaller one becomes 1, a larger or missing one 50 |
| History.ReadIsGapFree | src/assistant/message/assistant-message.repository.ts:99-118 | when every fetch lists the messages of the one before and maybe more behind them, what was read is a gap-free, repeat-free piece of the session |
| History.ReadIsPrefix | src/assistant/message/assistant-message.repository.ts:99-118 | and, read from the start, a prefix of it |
| HistoryTies.CompleteIff | src/assistant/message/assistant-message.repository.ts:99-118 | readers always get every message once, however each fetch orders messages of the same time, iff no two messages were created at the same time |
| HistoryTies.TieBreaks | src/assistant/message/assistant-message.repository.ts:113-117 | for any two neighbours of the same time there is a run of fetches that reads to the end and misses the second |
| HistoryTies.LaterAreAppended | src/assistant/message/assistant-message.repository.ts:113-117 | with distinct times, messages created later than all before are listed behind them |
| HistoryTies.GrowsByTime | src/assistant/message/assistant-message.repository.ts:113-117 | so growing sessions meet the condition of the reading theorems |
| Policies.NormalizeStringArray | src/retrieval/knowledge-access-policy.types.ts:96-120 | the loop keeps the first occurrence of every trimmed entry, or throws |
| Policies.NormalizeAccessPolicy | src/retrieval/knowledge-access-policy.types.ts:38-58 | accepts exactly the policies whose arrays are clean and that obey the visibility rule, as `PolicyMeaning.RuntimePolicyIs` says |
| PolicyMeaning.RuntimePolicyIs | src/retrieval/knowledge-access-policy.types.ts:38-58 | accepted iff both arrays hold only texts and CUSTOMER comes with no organization, ORGANIZATION with some; the result keeps the visibility and the first occurrence of every trimmed text, in order |
| PolicyMeaning.PolicyIs | scripts/customer-policy-normalization.ts:15-35 | the script accepts by the same condition, and calls the visibility invalid iff it is another text |
| Policies.SameAcceptance | scripts/customer-policy-normalization.ts:15-35 | the script and the runtime accept exactly the same policies |
| Policies.ScriptSortsRuntime | scripts/customer-policy-normalization.ts:37-40 | the script's arrays are the sorted permutations of the runtime's |
| Policies.AcceptedAreCanonical | src/retrieval/knowledge-access-policy.types.ts:96-120 | accepted policies come out trimmed, non-blank, duplicate-free and obeying the visibility rule |
| Policies.Idempotent | scripts/customer-policy-normalization.ts:15-40 | both normalisers are idempotent |
| Policies.FixedPointsAreCanonical | src/retrieval/knowledge-access-policy.types.ts:80-91 | the runtime's accepted fixed points are exactly the canonical policies |
| Policies.ScriptCanonicalIff | scripts/customer-policy-normalization.ts:42-45 | the script calls an array of any JSON values canonical iff it holds only strings, clean and sorted |
| Policies.CanonicalColumnAccepted | src/retrieval/deterministic-retrieval.provider.ts:42-63 | canonical columns meet the query's canonicality and cardinality conditions |
| Policies.SameReaders | src/retrieval/deterministic-retrieval.provider.ts:64-75 | whichever normaliser stored a policy, the same callers can read it: listed organization, all scopes |
| Texts.TrimSplits | src/retrieval/knowledge-chunking.service.ts:26-26 | trimming cuts white space off both ends and nothing else |

## Left out

- One connector call per item across different keys is not claimed: the guard runs before the compare-and-set, so two keys may both call.
- An executed item whose tool succeeded is not claimed: a failed connector result still reaches the transition, and `FirstDecision` says so.
- Identity and scope consistency assertions: the scope is built from the identity of the same request.
- Tool, permission and session gates are one verdict read by the step that evaluates them; the registry, the permission tables and the session's active status are outside.
- Timestamps of decisions, decision reasons and response bodies are not columns of the model; the clock is an input read at the check, so freshness is claimed only at that reading.
- Escalations always carry a requester in their summary, as their creation writes it.
- The message rows before an item is created are written by the send, outside the item services.
- Dispatch.SendMessage: one send at a time; two sends in one session may overwrite each other's task state, which is one row per session.
- Dispatch takes planning, the read-only tool, the retrieval provider's list and the conflict detector as inputs; answer wording, page context columns, tool call ids in the context row and audit rows other than answer_generated are not modelled.
- MessageStore.Store.RunDocumentRetrieval: its audit rows, which repeat the ids of the stored run and candidates, are not modelled.
- MessageStore: an item of a send has its message and kind only, its other columns and its later decisions are in `WorkflowStore`; ids are numbers handed out in order and no two tables share one.
- The session's read-only tool calls and the messages they write belong to the environment of the workflow.
- Chunking.SplitBySize: sizes of at least 1; with 0 or less the source's loop never ends.
- Retrieval.ScoreBounds: the quotient is exact, so the rounding of its floating-point value is not modelled.
- Retrieval: tokenisation, term expansion, case folding and the locale's comparison are inputs (terms, a function, a total order on ids); the SQL filter's conditions are in `Policies`.
- History: ids are what a page shows of a message; the session visibility check, tool calls and evidence of a page, and the audit row are not modelled.
- Preflight: whether a timestamp parses is an input, safe reason codes are listed in the source's alphabetical order, and reading the file and exit codes are left out.
- Policies: strings sort by code point, which agrees with JavaScript's order except for characters outside the basic plane; SQL `btrim` strips blanks only.
- TimeRanges: instants are unbounded integers; the clarification question's text is left out.
- HTTP, validation of request bodies, tokens, language models, logging, seeds and generated database code.

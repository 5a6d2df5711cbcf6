# Worker Worlds: verified model

This project models, in Dafny, the deterministic core of a test bench for AI workers, and proves
what that core promises over whole runs.

* **Transactional worlds.** One transaction writes the world state, one row of an append-only event
  log and one row of an idempotency table, or none of them. The Insurance and Marketing worlds plug
  their tools into this spine. Proved: exactly-once commits, event sourcing, sorted evidence, money and
  spending bounds, lifecycles, and who may change what.
* **Native tool bridge and adapter.** SDK callbacks, the runner and the provider interleave freely.
  Proved: delivery, at-most-once settlement, absence of deadlock, and when a terminal turn may appear.
* **Regression gate.** Distribution summaries, failure-mode changes, compatibility and the verdict.
  Proved: soundness, monotonicity, self-comparison, when there is no report at all, and the context gate.
* **Evidence.** Identifiers, the snapshot diff, generated assertions and their evaluator.

Conventions. A world's clock counts microseconds and its stamps are milliseconds. SHA-256 and the
canonical JSON it covers are taken to be injective, so a fingerprint is the tuple it hashes, with scopes
as a set. Rates and intervals are over the reals, and a square root is any non-negative real with the right
square. Dictionary keys and statuses are enumerations; their spelling plays no part. An exception is a
value: `Rejected`, `Thrown`, `Raised`, or `None` where the text says which error it stands for. Code that
assigns to fields or appends in loops is a class or a method proved against a function, and the results are
about that function.

Layout: `Ids`, `World`, `WorldRuns`, `WorldAnswers`, `Histories` (the spine); `Insurance*` and `Marketing*`
(the worlds); `Bridge`, `Adapter`, `AdapterRuns`, `AdapterResults`; `Statistics`, `Collections`,
`Comparison*`, `SummaryLaws`, `Gate*`; `Grading`, `InsuranceDiff`, `MarketingDiff`, `Prompts`, `PromptLaws`.
Behaviour is a function first; `WorldAnswers`, `*Acceptance`, `AdapterResults`, `SummaryLaws`, `GateReasons` and
`PromptLaws` then say in terms of its inputs what it does: when a call is accepted, with which
error otherwise, and what it leaves. `dafny verify dfyconfig.toml` checks everything.

Two assumptions on the environment are part of the model. The bridge's steps run without suspension
between their awaits (an unbounded queue never blocks a `put`, and the body of `close` awaits nothing
before its lock is released). The runner answers each call turn with that call's result on the next turn,
and stops once the adapter reports incomplete evidence.

## Where a first reading of the code is wrong

* An evidence or data request's event carries the document's status under `status`, because the later
  spread wins; a replay reads the new status from the event type (`StatusOverwritten`).
* Marketing does not keep spending within the approved or the proposed budget. A run keeps either
  exactly when every allocation was within what that budget had left (`RunWithinExactly`). Spending is
  bounded over all runs exactly when a budget was approved (`BoundedExactlyWhenApproved`); otherwise n
  allocations spend n times the proposed budget (`UnapprovedSpendUnbounded`). `SeedsOverspend` gives runs
  from seeds 0 and 600 that pass the proposed and the approved budget.
* The related campaign points at a segment that exists only for seeds 1100 to 1199
  (`RelatedSegmentExists`), and some run spends on it exactly from those seeds (`RelatedFundedExactly`).
* A failure mode is skipped on equal counts, not equal rates, and the primary classification is a `next`
  without a default. `ReportAbsentExactly` says for which inputs there is no report, and
  `ReportCanBeAbsent` is one of them.
* A placeholder nested in a dictionary argument makes the generated assertion unsatisfiable
  (`OwnArgumentsMatch`, `NestedPlaceholderFails`), although the prompt asks the worker to resolve it.
* Rules of the changed-entities assertion do not combine: it passes exactly when one rule covers an
  entity's whole change (`SubsetExactly`), and `RulesDoNotCombine` gives two snapshots for which rules for
  every changed field do not suffice.
* The two allowances for new critical and high failures are read from the suite configuration only:
  overriding them for a tag or a scenario sets the scenario's effective configuration, which nothing
  reads for this purpose, so the report stays the same (`AllowanceOverridesIgnored`).
  `OverrideWouldMatter` gives suites whose verdict would have been another.

## Model

| member | source | states |
|---|---|---|
| Ids.Encode | src/worker_worlds/ids.py:12-17 | filling the character array from the right leaves the base-32 text of the value, for any integer and width |
| Ids.EncodedOrder | src/worker_worlds/ids.py:12-17 | texts of one width compare, and are equal, exactly as the values do modulo 32 to that width |
| Ids.EncodedOrderInRange | src/worker_worlds/ids.py:12-17 | below 32 to the width the encoder is injective and order preserving, both ways |
| Ids.DecodeEncode | src/worker_worlds/ids.py:12-17 | positional decoding inverts the encoder up to the width |
| Ids.EncodeDecode | src/worker_worlds/ids.py:12-17 | every text over the alphabet is the encoding of what it decodes to |
| Ids.NewUlidSortable | src/worker_worlds/ids.py:20-26 | a ULID exists exactly for 48-bit timestamps, gives its time back, and sorts by time whatever the random parts |
| Ids.UlidsSortByTime | src/worker_worlds/ids.py:29-32 | a later millisecond gives a larger identifier, with no assumption on the hash |
| World.JsonWorld.constructor | src/worker_worlds/json_world.py:104-133 | a reset world has the seeded state, no events, no keys, and the seed's clock |
| World.JsonWorld.NextSequence | src/worker_worlds/json_world.py:259-263 | the next sequence is one more than the largest in the log |
| World.JsonWorld.Commit | src/worker_worlds/json_world.py:267-302 | the three writes happen together, and an injected failure undoes all three |
| World.JsonWorld.Execute | src/worker_worlds/json_world.py:206-302 | the in-place transaction is the specified step: key check, replay, conflict, domain behaviour, writes |
| World.JsonWorld.Error | src/worker_worlds/json_world.py:304-316 | an error answer advances the clock by a millisecond and nothing else |
| World.JsonWorld.Invoke | src/worker_worlds/json_world.py:176-204 | a call is answered as the specified step answers it, errors and rollback included |
| World.JsonWorld.AdvanceTime | src/worker_worlds/json_world.py:379-384 | time only moves forward; a negative delta is refused and changes nothing |
| World.JsonWorld.EventsAfter | src/worker_worlds/json_world.py:344-373 | the query returns the rows with a larger sequence, in order |
| World.StepEffect | src/worker_worlds/json_world.py:206-302 | a step either appends exactly one state, event and key, or leaves all three tables alone |
| World.RunRecords | src/worker_worlds/json_world.py:206-302 | over any run the database is exactly what the log of committed calls says |
| WorldRuns.ExactlyOnce | src/worker_worlds/json_world.py:249-302 | event rows, keys and committed calls are in bijection with 1..n, and the state is the fold of the committed calls alone |
| WorldRuns.CommittedKeyDecides | src/worker_worlds/json_world.py:229-248 | at any later time a committed key returns the first output for its own input and a conflict for any other, changing no table; the other-actor refusal is never reached |
| WorldRuns.NoPartialCommit | src/worker_worlds/json_world.py:229-302 | a step that adds no event, a rolled-back failure included, changes neither state nor keys |
| WorldRuns.CommitsExtend | src/worker_worlds/json_world.py:267-299 | later steps never remove or change an earlier commit |
| WorldRuns.CommitsAreSubmitted | src/worker_worlds/json_world.py:176-190 | every commit stems from a call that was submitted |
| WorldRuns.EntityIdsSort | src/worker_worlds/json_world.py:318-320 | identifiers of one prefix grow as strings with clock and sequence |
| WorldRuns.SortedEvidence | src/worker_worlds/json_world.py:271-280 | over any run ending below 2^48 ms event ids and occurrence times increase strictly in sequence order |
| WorldRuns.ResetClockPositive | src/worker_worlds/json_world.py:111 | every seed, negative ones too, starts the clock within 2026 |
| WorldAnswers.MalformedRefused | src/worker_worlds/json_world.py:176-202 | a call of another run, to an unknown tool or with refused arguments gets its own error a millisecond later and touches no table |
| WorldAnswers.MismatchedKeyRefused | src/worker_worlds/json_world.py:214-218 | a valid mutation whose arguments carry no key, or whose envelope carries another, is refused as a key mismatch with all three tables unchanged |
| WorldAnswers.UsedKeyAnswered | src/worker_worlds/json_world.py:229-248 | under a key already in the table the stored entry alone decides between the first result, a conflict and another actor's refusal |
| WorldAnswers.FreshKeyAnswered | src/worker_worlds/json_world.py:249-302 | under a fresh key the domain's rejection, the injected failure and the commit are told apart, with the very row and entry a commit writes |
| WorldAnswers.CommittedKeysAgree | src/worker_worlds/json_world.py:211-218 | every commit of every run carried a key, and its envelope none or the same one |
| WorldRuns.EventsAfterExactly | src/worker_worlds/json_world.py:344-373 | after any run, asking for the events after the n-th gives exactly those that followed it, in order |
| Histories.HistoryGrows | src/worker_worlds/json_world.py:272-291 | the event log of a run is a prefix of the log of every longer run |
| InsuranceDraft.Draft.AskForEvidence | src/worker_worlds/insurance.py:914-945 | the in-place evidence request changes the draft as specified, or not at all when it raises |
| InsuranceDraft.Draft.Decide | src/worker_worlds/insurance.py:964-1001 | the in-place decision changes the draft as specified, or not at all when it raises |
| InsuranceDraft.Draft.Escalate | src/worker_worlds/insurance.py:1002-1027 | the in-place escalation changes the draft as specified, or not at all when it raises |
| InsuranceDraft.Draft.Pay | src/worker_worlds/insurance.py:1028-1061 | the in-place payment changes the draft as specified, or not at all when it raises |
| InsuranceDraft.Draft.AddNote | src/worker_worlds/insurance.py:829-850 | the in-place notes append one row and describe it |
| InsuranceDraft.Draft.RecordRecommendation | src/worker_worlds/insurance.py:851-878 | the in-place recommendation appends one non-binding row and describes it |
| InsuranceDraft.Draft.Flag | src/worker_worlds/insurance.py:879-902 | the in-place risk flag appends one row and describes it |
| InsuranceDraft.Draft.ApplyTool | src/worker_worlds/insurance.py:829-1061 | the whole mutation dispatch, guards included, does to the draft what the specification says |
| InsuranceRuns.RecordRoundTrip | src/worker_worlds/insurance.py:858-877 | a record survives being written as event fields and read back |
| InsuranceRuns.StatusOverwritten | src/worker_worlds/insurance.py:934-937 | an evidence request's claim status is lost to the document's, an escalation's is not |
| InsuranceRuns.EventTellsAll | src/worker_worlds/insurance.py:829-1061 | an accepted mutation's event alone rebuilds the new state, its `before` is what the old state held, and it keeps the lifecycle and money rules; an accepted read changes nothing |
| InsuranceRuns.LogRebuilds | src/worker_worlds/json_world.py:249-302 | folding the events of the committed calls rebuilds the state those calls left |
| InsuranceRuns.EventFits | src/worker_worlds/insurance.py:911-1061 | every logged event was entitled, lawful, and recorded what the earlier events give |
| InsuranceInvariants.EventSourcing | src/worker_worlds/json_world.py:249-302 | over every run the event rows fold to the stored state, and each row's `before` is the fold of the rows before it |
| InsuranceInvariants.FrameKept | src/worker_worlds/insurance.py:829-1061 | no event touches anything but a claim's status, approved and paid amounts, and the append-only collections |
| InsuranceInvariants.SeedsSound | src/worker_worlds/insurance.py:349-620 | from every integer seed each claim starts balanced |
| InsuranceInvariants.FundedStep | src/worker_worlds/insurance.py:964-1061 | every lawful event keeps all claims balanced |
| InsuranceInvariants.MoneyInvariant | src/worker_worlds/insurance.py:964-1061 | in every reachable state 0 <= paid <= approved <= min(requested, limit), paid = approved exactly off APPROVED, and paid is the sum of the payment records and of the payment events |
| InsuranceInvariants.DecidedAtMostOnce | src/worker_worlds/insurance.py:964-971 | a claim is decided at most once in a run, and never if seeded decided |
| InsuranceInvariants.PaymentsFollowApproval | src/worker_worlds/insurance.py:1028-1043 | every payment event follows the approving decision on its claim, unless seeded approved |
| InsuranceInvariants.ClosedClaimsStayClosed | src/worker_worlds/insurance.py:914-1061 | a rejected or fully paid claim never changes again, whatever is submitted |
| InsuranceInvariants.RowOrigin | src/worker_worlds/insurance.py:911-915 | each event row stems from a submitted call that held the tool's scope and owned the claim |
| InsuranceInvariants.MoneyNeedsAuthority | src/worker_worlds/insurance.py:964-1097 | without a decide scope in any call no approved amount moves, and without a pay scope no paid amount moves and no payment appears, replays included |
| InsuranceInvariants.CustomersAreIsolated | src/worker_worlds/insurance.py:1083-1090 | a run on behalf of one customer leaves all other customers' claims and attached records as they were |
| InsuranceAnalysis.PayableMonotone | src/worker_worlds/insurance.py:776-801 | the payable amount grows with the request and never exceeds request or limit |
| InsuranceAnalysis.AnalysisGuidesDecision | src/worker_worlds/insurance.py:776-1001 | whenever in a run an analysis is answered with a positive payable, then however the run goes on, approving that amount under a fresh key while the claim is undecided commits |
| InsuranceAnalysis.DecisionAcceptsPayable | src/worker_worlds/insurance.py:964-983 | an authorized approval of an undecided claim is accepted exactly up to request and limit, so always for a positive payable |
| InsuranceAnalysis.ApprovalCommits | src/worker_worlds/insurance.py:964-1001 | approving a positive payable under a fresh key without fault injection commits and answers success |
| InsuranceAnalysis.AnalysisIsStable | src/worker_worlds/insurance.py:776-828 | nothing a run does moves an analysis |
| InsuranceAnalysis.SeedEligibility | src/worker_worlds/insurance.py:421-559 | over all integer seeds the primary claim is eligible exactly outside 8500-8599, 9200-9399 and 9500-9599 |
| InsuranceAcceptance.AnalystToolsExactly | src/worker_worlds/insurance.py:829-902 | an analyst tool is accepted exactly for an existing, owned claim under its scope, which is asked for before the claim is looked up |
| InsuranceAcceptance.AdjusterNoteExactly | src/worker_worlds/insurance.py:903-963 | an adjuster note is accepted exactly for an existing, owned claim under its scope |
| InsuranceAcceptance.EvidenceExactly | src/worker_worlds/insurance.py:914-945 | evidence is requested exactly from an entitled caller's open or investigated claim; each refusal has its condition, and the new state is given |
| InsuranceAcceptance.EscalationExactly | src/worker_worlds/insurance.py:1002-1027 | an investigation is opened exactly on an entitled caller's claim that is not approved, rejected or paid |
| InsuranceAcceptance.ApprovalExactly | src/worker_worlds/insurance.py:964-1001 | an approval is accepted exactly while undecided and covered, for a positive amount within request and limit; each refusal has its condition |
| InsuranceAcceptance.RejectionExactly | src/worker_worlds/insurance.py:964-1001 | a rejection is accepted exactly while undecided and covered, with a zero amount |
| InsuranceAcceptance.PaymentExactly | src/worker_worlds/insurance.py:1028-1040 | a payment is accepted exactly on an approved claim under an active policy, in the currency of claim and coverage, within approved minus paid; each of the six refusals has its exact condition |
| InsuranceAcceptance.PaymentCommitsExactly | src/worker_worlds/insurance.py:1028-1061 | on any database a payment under a fresh key commits exactly when it is due, adding the amount and closing the claim at a zero balance; otherwise only the clock moves |
| InsuranceAcceptance.ApprovedThenPaid | src/worker_worlds/insurance.py:964-1061 | approving an amount and then paying its whole balance, under two fresh keys and an active policy, succeeds twice and leaves the claim paid |
| InsuranceAcceptance.SearchExactly | src/worker_worlds/insurance.py:724-742 | a search is answered exactly to readers and lists exactly the sought claims of the customer asked for, or of the caller |
| InsuranceAcceptance.ClaimReadExactly | src/worker_worlds/insurance.py:691-775 | the tools that read about one claim answer exactly its readers, with exactly its rows |
| InsuranceAcceptance.PolicyReadExactly | src/worker_worlds/insurance.py:678-690 | a policy is shown, with exactly its coverages, to its holder or a reader |
| InsuranceAcceptance.PayableExactly | src/worker_worlds/insurance.py:782-793 | payable is 0 when the deductible swallows request, limit or sublimit; otherwise payable and deductible add up to the least of the three |
| InsuranceAcceptance.AnalysisMeans | src/worker_worlds/insurance.py:785-827 | eligibility, sublimit and flags of an analysis, each as a condition on claim, coverage and policy |
| InsuranceAcceptance.AnalysisAnswered | src/worker_worlds/insurance.py:776-828 | on any database an answered analysis is of the claim as it stands and pays out exactly when request, limit and sublimit exceed the deductible |
| InsuranceDiff.DiffAgreesWithLog | src/worker_worlds/grading.py:100-131 | between any two snapshots of an Insurance run every listed field was written by an event in between: a claim's status, approved or paid amount by an event on that claim that writes that field, a record by the event that appended it |
| MarketingDiff.DiffAgreesWithLog | src/worker_worlds/grading.py:100-131 | the same between any two snapshots of a Marketing run, for a campaign's status and spending and the appended records |
| MarketingDraft.Draft.AddRow | src/worker_worlds/marketing.py:710-783 | the in-place analyst tools append one row and describe it |
| MarketingDraft.Draft.RequestData | src/worker_worlds/marketing.py:795-826 | the in-place data request changes the draft as specified, or not at all when it raises |
| MarketingDraft.Draft.Escalate | src/worker_worlds/marketing.py:827-856 | the in-place escalation changes the draft as specified, or not at all when it raises |
| MarketingDraft.Draft.GoLive | src/worker_worlds/marketing.py:857-884 | the in-place launch changes the draft as specified, or not at all when it raises |
| MarketingDraft.Draft.Send | src/worker_worlds/marketing.py:885-905 | the in-place communication changes the draft as specified, or not at all when it raises |
| MarketingDraft.Draft.CheckAllocation | src/worker_worlds/marketing.py:907-932 | the checks refuse an allocation in the specified order |
| MarketingDraft.Draft.Allocate | src/worker_worlds/marketing.py:906-956 | the in-place allocation changes the draft as specified, or not at all when it raises |
| MarketingDraft.Draft.ApplyTool | src/worker_worlds/marketing.py:710-956 | the whole mutation dispatch, guards included, does to the draft what the specification says |
| MarketingRuns.RecordRoundTrip | src/worker_worlds/marketing.py:740-782 | a record survives being written as event fields and read back |
| MarketingRuns.StatusOverwritten | src/worker_worlds/marketing.py:815-818 | a data request's campaign status is lost to the document's, an escalation's is kept |
| MarketingRuns.EventTellsAll | src/worker_worlds/marketing.py:710-956 | an accepted mutation's event alone rebuilds the new state, its `before` is what the old state held, and it keeps the lifecycle and spending rules; an accepted read changes nothing |
| MarketingRuns.LogRebuilds | src/worker_worlds/json_world.py:249-302 | folding the events of the committed calls rebuilds the state those calls left, as a lawful history |
| MarketingRuns.EventSourcing | src/worker_worlds/json_world.py:249-302 | over every run the event rows fold to the stored state, and each row's `before` is the fold of the rows before it |
| MarketingRuns.RowOrigin | src/worker_worlds/marketing.py:972-984 | each event row stems from a submitted call that held the tool's scope and owned the campaign |
| MarketingInvariants.FrameKept | src/worker_worlds/marketing.py:710-956 | no event touches anything but a campaign's status and spending, and the append-only collections; approved budgets never change |
| MarketingInvariants.SeedsThrifty | src/worker_worlds/marketing.py:325-528 | from every integer seed each campaign starts within its spending bounds |
| MarketingInvariants.ThriftyStep | src/worker_worlds/marketing.py:906-956 | every lawful event keeps every campaign within its spending bounds |
| MarketingInvariants.SpendInvariant | src/worker_worlds/marketing.py:928-956 | in every reachable state spent is the sum of the allocations; with an approved budget an open campaign has spent less than it, and no campaign passes it by max(approved, proposed) |
| MarketingSpending.AllocationWithinExactly | src/worker_worlds/marketing.py:928-934 | an accepted allocation leaves spending within a bound, proposed or approved for instance, exactly when the amount is at most what the bound had left |
| MarketingSpending.RunWithinExactly | src/worker_worlds/marketing.py:928-956 | over any run spending ends within a bound it starts within exactly when every allocation was within what the bound had left |
| MarketingSpending.AllocationCommits | src/worker_worlds/marketing.py:906-956 | an entitled allocation up to max(remaining, proposed) under a fresh key commits and charges the campaign |
| MarketingSpending.UnapprovedSpendUnbounded | src/worker_worlds/marketing.py:928-936 | without an approved budget n allocations under distinct keys leave exactly n times the proposed budget spent |
| MarketingSpending.BoundedExactlyWhenApproved | src/worker_worlds/marketing.py:928-936 | a fundable campaign's spending has a bound over all runs exactly when a budget was approved |
| MarketingSpending.SeedsOverspend | src/worker_worlds/marketing.py:372-463 | concrete runs from seeds 0 and 600 pass the proposed and the approved budget |
| MarketingInvariants.RelatedSegmentExists | src/worker_worlds/marketing.py:464-484 | the related campaign's segment exists exactly for seeds 1100 to 1199 |
| MarketingInvariants.RelatedNeverFunded | src/worker_worlds/marketing.py:917 | from every other seed no run ever spends anything on it |
| MarketingSpending.RelatedAllocationCommits | src/worker_worlds/marketing.py:906-956 | from every seed 1100 to 1199 an entitled allocation on it, up to its proposed budget, commits |
| MarketingSpending.RelatedFundedExactly | src/worker_worlds/marketing.py:467 | some run spends on it exactly from the seeds 1100 to 1199 |
| MarketingInvariants.SeedEligibility | src/worker_worlds/marketing.py:345-463 | over all integer seeds the primary campaign is eligible exactly outside 100-399, 900-1099 and 1200-1299 |
| MarketingInvariants.ExposureIsStable | src/worker_worlds/marketing.py:650-709 | nothing a run does moves an exposure, not even money spent |
| MarketingInvariants.LaunchedAtMostOnce | src/worker_worlds/marketing.py:857-869 | a campaign is launched at most once in a run, and never if seeded past launch |
| MarketingInvariants.CommunicationsFollowLaunch | src/worker_worlds/marketing.py:885-897 | every communication follows a launch of its campaign, unless seeded live |
| MarketingInvariants.FinishedCampaignsStay | src/worker_worlds/marketing.py:795-956 | a completed or rejected campaign never changes again, whatever is submitted |
| MarketingInvariants.ActionsNeedAuthority | src/worker_worlds/marketing.py:857-907 | without the matching scope in any call nothing is launched, sent or spent, replays included |
| MarketingInvariants.AdvertisersAreIsolated | src/worker_worlds/marketing.py:977-984 | a run on behalf of one advertiser leaves all other advertisers' campaigns and attached records as they were |
| MarketingAcceptance.AnalystToolsExactly | src/worker_worlds/marketing.py:710-783 | an analyst tool is accepted exactly for an existing, owned campaign under its scope, which is asked for before the campaign is looked up |
| MarketingAcceptance.RequestExactly | src/worker_worlds/marketing.py:795-826 | data is requested exactly from an entitled caller's draft or reviewed campaign; each refusal has its condition, and the new state is given |
| MarketingAcceptance.EscalationExactly | src/worker_worlds/marketing.py:827-856 | a review is opened exactly on an entitled caller's campaign that is not live, completed or rejected |
| MarketingAcceptance.LaunchExactly | src/worker_worlds/marketing.py:857-884 | a campaign goes live exactly for an entitled caller while not live, completed or rejected |
| MarketingAcceptance.SendExactly | src/worker_worlds/marketing.py:885-905 | a communication is sent exactly for an entitled caller's live campaign |
| MarketingAcceptance.AllocationExactly | src/worker_worlds/marketing.py:906-932 | an allocation is accepted exactly on an open campaign of an active advertiser, in the currency of campaign and segment, within the approved rest or the proposal; each of the six refusals has its exact condition |
| MarketingAcceptance.AllocationCommitsExactly | src/worker_worlds/marketing.py:906-956 | on any database an allocation under a fresh key commits exactly when it is due, adding the amount and completing the campaign at its approved budget; otherwise only the clock moves |
| MarketingAcceptance.LaunchedThenSent | src/worker_worlds/marketing.py:857-905 | a communication refused before the launch succeeds, and is listed, after it |
| MarketingAcceptance.SearchExactly | src/worker_worlds/marketing.py:584-602 | a search is answered exactly to readers and lists exactly the sought campaigns of the advertiser asked for, or of the caller |
| MarketingAcceptance.CampaignReadExactly | src/worker_worlds/marketing.py:608-649 | the tools that read about one campaign answer exactly its readers, with exactly its rows |
| MarketingAcceptance.DeployableExactly | src/worker_worlds/marketing.py:664-668 | the deployable budget is 0 when the fee swallows proposal, cap or channel cap; otherwise budget and fee add up to the least of the three |
| MarketingAcceptance.ExposureMeans | src/worker_worlds/marketing.py:656-708 | eligibility, channel cap and flags of an exposure, each as a condition on campaign, segment and advertiser |
| MarketingAcceptance.ExposureAnswered | src/worker_worlds/marketing.py:650-709 | on any database an answered exposure is of the campaign as it stands, and an eligible one deploys exactly the proposal less the fee |
| Bridge.NativeToolBridge.SubmitCall | src/worker_worlds/native_bridge.py:72-104 | a submission is refused or queued as specified, up to the point where it awaits its future |
| Bridge.NativeToolBridge.ResumeCallback | src/worker_worlds/native_bridge.py:105-108 | a settled callback leaves with its outcome and removes its own entry |
| Bridge.NativeToolBridge.CancelWaiting | src/worker_worlds/native_bridge.py:105-108 | a cancelled callback that still waits settles as cancelled; one already settled does not change |
| Bridge.NativeToolBridge.Take | src/worker_worlds/native_bridge.py:110-114 | calls leave first in, first out; an empty closed bridge refuses and an empty open one blocks |
| Bridge.NativeToolBridge.Deliver | src/worker_worlds/native_bridge.py:116-123 | a result settles exactly its waiting callback, and otherwise raises without effect |
| Bridge.NativeToolBridge.FailWaiting | src/worker_worlds/native_bridge.py:141-144 | the loop fails every callback still waiting and no other |
| Bridge.NativeToolBridge.Shut | src/worker_worlds/native_bridge.py:135-146 | close fails what waits and drains the queue once; a second close does nothing |
| Bridge.DeliveryInvariant | src/worker_worlds/native_bridge.py:72-146 | over every interleaving ids are distinct, handed plus queued is the submission order until close, and a callback settles only with its own result, the closed error or its own cancellation |
| Bridge.SettledOnce | src/worker_worlds/native_bridge.py:116-146 | no settlement ever changes, and after close nothing waits, is queued, accepted or handed out, ever again |
| Bridge.ResolveExact | src/worker_worlds/native_bridge.py:116-123 | a result is delivered exactly when its callback waits |
| Adapter.NativeAdapter.NextTurn | src/worker_worlds/adapters.py:216-232 | the turn up to its first suspension settles, ends, emits or races as specified |
| Adapter.NativeAdapter.CallTaskStep | src/worker_worlds/adapters.py:230 | the racing task takes the next call, waits, or fails on a closed bridge |
| Adapter.NativeAdapter.ReturnFromRace | src/worker_worlds/adapters.py:231-238 | a taken call wins over a provider that has also ended |
| Adapter.NativeAdapter.ReturnFromDrain | src/worker_worlds/adapters.py:237-242 | after the drain, anything pending or queued turns the end into the pending error |
| Adapter.NativeAdapter.ProviderTerminalTurn | src/worker_worlds/adapters.py:244-281 | the end of the provider becomes a terminal turn, the pending error or the provider's failure |
| Adapter.NativeAdapter.CallTurnOf | src/worker_worlds/adapters.py:283-293 | a call turn takes the next index and notes whether the provider has already ended |
| Adapter.NativeAdapter.CancelAdapter | src/worker_worlds/adapters.py:324-331 | cancellation closes the bridge once |
| AdapterRuns.SystemInvariant | src/worker_worlds/adapters.py:216-293 | over every interleaving each waiting callback is queued, held or in flight, and results go only to calls handed out |
| AdapterRuns.BlockedOnlyOnProvider | src/worker_worlds/adapters.py:230-233 | whenever the runner blocks in the race the provider is running and no callback waits on the runner |
| AdapterRuns.TerminalExactly | src/worker_worlds/adapters.py:239-253 | a terminal turn appears exactly when the provider returned with nothing pending or queued; otherwise the pending error is raised |
| AdapterRuns.TurnsFollowSubmissions | src/worker_worlds/adapters.py:283-293 | turn indices run 0, 1, 2, ..., each turn answers the call before it, and calls follow submission order |
| AdapterRuns.CancelledStaysDrained | src/worker_worlds/adapters.py:324-331 | after cancellation nothing waits or is queued, whatever happens next |
| AdapterResults.SubmitExactly | src/worker_worlds/native_bridge.py:80-104 | a submission is accepted exactly on an open bridge that knows the tool and has not seen the id; the queued call carries the id, tool, arguments and key submitted |
| AdapterResults.SubmissionsExactly | src/worker_worlds/native_bridge.py:80-104 | over every interleaving the accepted calls are those submitted before the first close to known tools under new ids, in order |
| AdapterResults.OneExpected | src/worker_worlds/native_bridge.py:80-104 | and the steps of a run allow only one such list |
| AdapterResults.SettledExactly | src/worker_worlds/native_bridge.py:116-144 | at every point of every run a waiting callback settles exactly by its own result, its cancellation or the close, each with its own outcome |
| AdapterResults.LeavesExactly | src/worker_worlds/native_bridge.py:105-108 | a callback leaves the bridge exactly by resuming once it is settled |
| AdapterResults.BeginDelivers | src/worker_worlds/adapters.py:222-223 | a turn begun while the previous callback waits hands that callback the runner's own payload |
| AdapterResults.BeginExactly | src/worker_worlds/adapters.py:216-230 | in any run a turn begins by stopping on a lost callback, then on a provider that ended with callbacks waiting, then by turning out the oldest queued call, and races otherwise |
| AdapterResults.RaceExactly | src/worker_worlds/adapters.py:231-238 | in any run a taken call is turned out even when the provider has ended, and only a decided race ends |
| AdapterResults.PayloadsReachTheirCallbacks | src/worker_worlds/adapters.py:216-293 | over every interleaving each turn after the first carries the payload it was begun with, for the call before it, and whatever a callback was delivered is the payload brought back right after its call |
| Statistics.WilsonBounds | src/worker_worlds/comparison.py:100-113 | the interval lies in [0, 1] around the observed rate and neither clamp ever changes a value |
| Statistics.WilsonReflects | src/worker_worlds/comparison.py:105-113 | swapping successes and failures reflects the interval about one half |
| Statistics.RootUnique | src/worker_worlds/comparison.py:110 | the square root the interval uses is determined |
| Statistics.WilsonInvertsScore | src/worker_worlds/comparison.py:100-113 | the interval holds exactly the rates x with (x - p)^2 <= z^2 x (1 - x) / n at z = 1.959963984540054 |
| Statistics.SortedOrdered | src/worker_worlds/comparison.py:119 | the sort orders its input and keeps its members |
| Statistics.PercentileAtRank | src/worker_worlds/comparison.py:120-125 | at k/(n - 1) the percentile is the k-th smallest value |
| Statistics.PercentileLinear | src/worker_worlds/comparison.py:120-125 | between neighbouring ranks a percentile moves linearly from one value to the next |
| Statistics.PercentileMonotone | src/worker_worlds/comparison.py:116-125 | a percentile grows with the fraction |
| Statistics.PercentileLaws | src/worker_worlds/comparison.py:116-125 | a percentile stays within the sample and depends only on the multiset of values |
| Collections.SortedIncreasing | src/worker_worlds/comparison.py:201 | `sorted(set(...))` is strictly increasing |
| Collections.IncreasingUnique | src/worker_worlds/comparison.py:302 | and is the only increasing list with those members |
| ComparisonLaws.SummarySane | src/worker_worlds/comparison.py:128-184 | passed, failed and errors are non-negative and add up, outcome and terminal counts sum to completed, rates are rates, and p50 <= p95 |
| ComparisonLaws.SummaryInterval | src/worker_worlds/comparison.py:137 | the reported interval lies in [0, 1] around the pass rate |
| ComparisonLaws.SummaryVariability | src/worker_worlds/comparison.py:138 | variability lies in [0, 1 - 1/n] and is 0 exactly when all signatures agree |
| ComparisonLaws.SummaryPermuted | src/worker_worlds/comparison.py:128-184 | a summary depends only on the multiset of runs |
| SummaryLaws.SummaryCounts | src/worker_worlds/comparison.py:130-165 | completed, passed, errors, and the counts by outcome and by terminal reason are the numbers of runs they name, passing spelled out on the verdicts |
| SummaryLaws.SummaryRates | src/worker_worlds/comparison.py:136-184 | the pass rate and the infrastructure error rate are shares of all runs, 0 of none |
| SummaryLaws.TotalsGrow | src/worker_worlds/comparison.py:172-177 | one more run adds its own tokens and cost, and a total is there once some run reports one |
| SummaryLaws.SeveritiesGrow | src/worker_worlds/comparison.py:139-144 | one more run adds its verdicts that did not pass to the counts by severity |
| SummaryLaws.VariabilityExactly | src/worker_worlds/comparison.py:138 | variability is the share of runs outside the most common outcome |
| SummaryLaws.SummaryPercentiles | src/worker_worlds/comparison.py:170-171 | the two durations are the 0.5 and 0.95 percentiles of the runs' durations |
| SummaryLaws.GroupExactly | src/worker_worlds/comparison.py:343-344 | a scenario's group holds its own runs, each as often as the suite does |
| ComparisonLaws.FailedExact | src/worker_worlds/comparison.py:187-192 | a failure identity is in a run's dictionary exactly when one of its failing verdicts has it |
| SummaryLaws.LastFailureKept | src/worker_worlds/comparison.py:187-192 | a run keeps, for each assertion and policy, its last verdict that did not pass |
| SummaryLaws.CountExactly | src/worker_worlds/comparison.py:198-203 | a failure mode counts the runs with a verdict about it that did not pass |
| ComparisonLaws.DeltasExact | src/worker_worlds/comparison.py:195-251 | the i-th change is the i-th identity, in order, whose run counts differ, and is new or removed by which side lacks it |
| ComparisonLaws.ChangedIdentity | src/worker_worlds/comparison.py:201-204 | no identity is missed: it is reported exactly when its run counts differ |
| SummaryLaws.DeltaMeans | src/worker_worlds/comparison.py:206-225 | a change's rates are shares of runs; it is judged by the candidate's failing runs, or the baseline's where it has none; kind and severity are those of the kept verdicts, the severity the greatest |
| ComparisonLaws.OccurrencesInRisen | src/worker_worlds/comparison.py:456-472 | rounding rate times completed gives back the candidate's run count of each risen identity |
| ComparisonLoops.FailureModes | src/worker_worlds/comparison.py:195-251 | the loop over sorted identities builds the specified changes |
| ComparisonLoops.Compatibility | src/worker_worlds/comparison.py:254-279 | the running level and list end at the level and reasons their conditions call for |
| ComparisonLoops.CompareOne | src/worker_worlds/comparison.py:343-439 | one pass of the loop body gives the specified comparison or none |
| ComparisonLoops.CompareEach | src/worker_worlds/comparison.py:342-440 | the loop over scenarios gives all comparisons, or none as soon as one has no primary classification |
| ComparisonLoops.BuildReport | src/worker_worlds/comparison.py:446-558 | the report's loops gather the specified reasons, warnings and counts |
| ComparisonLoops.Compare | src/worker_worlds/comparison.py:292-443 | the whole comparison gives the specified report or none |
| GateLaws.PassesExactly | src/worker_worlds/comparison.py:455-524 | a report passes exactly when nothing is incompatible, the two allowances hold and every scenario meets its effective thresholds |
| GateLaws.RegressionFails | src/worker_worlds/comparison.py:496-521 | over suites, a listed scenario above its latency, token or cost bound, with the metric not excluded, forces a failing verdict |
| GateLaws.NewCountsExact | src/worker_worlds/comparison.py:456-472 | new critical and high counts are the candidate's run counts of identities of that severity whose rate rose and whose counts differ |
| GateLaws.IncompleteEvidenceFails | src/worker_worlds/comparison.py:259-262 | incomplete evidence in any listed scenario, on either side, forces a failing and incompatible report |
| GateLaws.NewCriticalFails | src/worker_worlds/comparison.py:477-481 | a critical failure the baseline never had fails the gate whenever its run count exceeds the allowance |
| GateLaws.OwnRelaxed | src/worker_worlds/comparison.py:282-289 | relaxing a configuration's own thresholds relaxes the effective ones for every scenario and every list of tags |
| GateLaws.GateMonotone | src/worker_worlds/comparison.py:455-524 | relaxing any thresholds never turns a produced pass into a fail |
| GateOrder.OverridePrecedence | src/worker_worlds/comparison.py:282-289 | for every field the scenario's override wins, then the last tag in sorted order that sets it, then the suite's own value |
| GateAllowances.AllowanceOverridesIgnored | src/worker_worlds/comparison.py:477-487 | configurations that differ only in allowances set by tag or scenario overrides give the same report, or none, for every pair of suites |
| GateAllowances.OverrideWouldMatter | src/worker_worlds/comparison.py:477-481 | a pair of suites fails although its only scenario's effective allowance covers the failure, and passes when the suite's own does |
| GateOrder.PrimaryFirst | src/worker_worlds/comparison.py:407-422 | the primary classification is the first of the order that was found |
| GateOrder.PrimaryMeans | src/worker_worlds/comparison.py:376-422 | incompatible groups are always and only reported as such, a lost perfect pass rate always and only as a new failure, and an unchanged pass means two perfect, sufficient samples |
| GateOrder.FindingsExactly | src/worker_worlds/comparison.py:376-406 | each of the twelve findings, as a condition on the two summaries |
| GateOrder.PrimaryExactly | src/worker_worlds/comparison.py:376-422 | the primary classification as one chain of conditions on the two summaries |
| GateOrder.ReasonsExplainLevel | src/worker_worlds/comparison.py:347-356 | a scenario is compatible exactly when it has no compatibility reason, and says exactly what makes it incompatible |
| GateOrder.ReportLevelExactly | src/worker_worlds/comparison.py:525-531 | the report is as compatible as its least compatible scenario |
| GateReasons.GlobalReasonMeans | src/worker_worlds/comparison.py:305-341 | each reason about the suites as a whole, as a condition on their worlds, workers, environments and verdict versions |
| GateReasons.GroundMeans | src/worker_worlds/comparison.py:254-279 | each reason about a scenario's runs, as a condition on pairs of runs; adapters are named only when nothing else is |
| GateReasons.IncompatibleExactly | src/worker_worlds/comparison.py:347-355 | a scenario is incompatible exactly for a missing side, globally differing suites, incomplete evidence, differing world majors, or a forbidden hash mismatch |
| GateReasons.ScenarioReasonsExactly | src/worker_worlds/comparison.py:347-356 | the reasons a scenario lists are its own, the suites' where they decide its level, and a missing side |
| GateReasons.ReasonsExactly | src/worker_worlds/comparison.py:475-524 | each reason of the verdict, exactly by its suite-wide check or by the scenario and threshold it is about |
| GateReasons.WarningsExactly | src/worker_worlds/comparison.py:494-524 | each warning of the verdict, exactly by the scenario it is about |
| GateCases.ReportAbsentExactly | src/worker_worlds/comparison.py:376-422 | there is no report exactly when some listed scenario has differing pass rates below 1, agreeing counts and no other finding |
| GateCases.ReportCanBeAbsent | src/worker_worlds/comparison.py:422 | a concrete pair of suites has no report |
| GateCases.SelfReport | src/worker_worlds/comparison.py:381-422 | comparing any suite with itself always yields a primary classification |
| GateCases.SelfComparison | src/worker_worlds/comparison.py:292-443 | that report has no changes and no new failures, and passes exactly when compatible, within its rate bounds and not failing on low samples |
| GateCases.ContextualPassExactly | src/worker_worlds/comparison_context.py:100-189 | a contextual pass is a passing report on complete evidence in all runs, listed or not, under contexts that differ at most in the agent |
| Grading.Diff | src/worker_worlds/grading.py:100-131 | the nested loops build the specified list of changes |
| Grading.DiffExact | src/worker_worlds/grading.py:100-131 | the list holds exactly the (type, id, field) triples that read differently |
| Grading.KeptEntityListed | src/worker_worlds/grading.py:100-131 | a field of an entity in both snapshots is listed exactly when its values differ, missing counting as null |
| Grading.NewEntityListed | src/worker_worlds/grading.py:100-131 | an entity new in the later snapshot is listed with exactly its fields that are not null |
| Grading.SubsetSound | src/worker_worlds/grading.py:411-448 | when the assertion passes, every field no rule covers is unchanged |
| Grading.SubsetExactly | src/worker_worlds/grading.py:411-448 | it passes exactly when each changed entity has one rule covering all its changed fields and each changed non-list value an applicable rule for any field |
| Grading.OtherEntitiesRulesFail | src/worker_worlds/grading.py:437-441 | a differing field fails the assertion whenever every rule of the type is for another id |
| Grading.RulesDoNotCombine | src/worker_worlds/grading.py:443-447 | two concrete snapshots whose every changed field has its own rule fail the assertion |
| Prompts.EvidenceExact | src/worker_worlds/scenario_prompts.py:12-22 | a value's pinned form is what a script sends for it exactly when it holds no dictionary placeholder and its list placeholders resolve to themselves |
| Prompts.OwnArgumentsMatch | src/worker_worlds/scenario_prompts.py:73 | a sent call carries its own pinned arguments exactly when every argument that is not itself a placeholder is plain |
| Prompts.NestedPlaceholderFails | src/worker_worlds/scenario_prompts.py:15-19 | a dictionary argument holding one placeholder never matches what is sent for it |
| PromptLaws.PlaceholderSent | src/worker_worlds/stubs.py:376-386 | what a script sends for a placeholder is the field it names of the last result, which must be an object that has it |
| PromptLaws.PinsExactly | src/worker_worlds/scenario_prompts.py:12-22 | the pins of a call are its arguments that do not start with the placeholder mark |
| Prompts.ResolveLoop | src/worker_worlds/grading.py:41-51 | the cursor loop finds what the path leads to, or the missing marker |
| Prompts.PathsCompose | src/worker_worlds/grading.py:41-51 | a longer path continues where the shorter one arrives, or misses with it |
| PromptLaws.PathSteps | src/worker_worlds/grading.py:44-50 | a path steps into an object's field, or into a list's item at its decimal position, which reads back for every number |
| Prompts.ToolResultMatches | src/worker_worlds/grading.py:488-544 | the evaluator's loop counts exactly the matching calls and compares with the expected count |
| PromptLaws.PassesExactly | src/worker_worlds/grading.py:499-544 | an assertion passes exactly when as many turns meet it as it counts: tool, pinned arguments, and the last result of that call with its status, error type and output |
| Prompts.Generate | src/worker_worlds/scenario_prompts.py:59-102 | the grouping loop and the listing loop give the specified assertions; unequal lengths raise |
| PromptLaws.GeneratedStandFor | src/worker_worlds/scenario_prompts.py:71-101 | every generated assertion has the tool, pins, status and output of some scripted call and counts the calls alike |
| PromptLaws.CallsAreAsserted | src/worker_worlds/scenario_prompts.py:71-101 | every scripted call has such an assertion |
| PromptLaws.AssertionsAreDistinct | src/worker_worlds/scenario_prompts.py:71-81 | two calls share it exactly when tool, pins, status and output agree |
| Prompts.ExpectedStatuses | src/worker_worlds/scenario_prompts.py:105-123 | only the last status can be an error, exactly for a refusal event or a conflicting last call |
| PromptLaws.ConflictsExactly | src/worker_worlds/scenario_prompts.py:115-121 | the last call conflicts exactly when tool and key stay, a missing key counting as null, and the arguments change |
| Prompts.CountsConserved | src/worker_worlds/scenario_prompts.py:71-89 | the generated counts add up to the number of calls |
| Prompts.GroupsPartition | src/worker_worlds/scenario_prompts.py:71-81 | each group counts exactly the calls that share its fingerprint, and no two groups share one |
| Prompts.GeneratedPassExactly | src/worker_worlds/scenario_prompts.py:82-101 | a record that performs the calls passes an assertion exactly when no call of another group matches it too |
| Prompts.GeneratedSatisfiable | src/worker_worlds/grading.py:504-544 | all assertions pass when no group's pinned arguments lie within those of a differently grouped call with the same tool and status |

## Left out

* PostgreSQL itself, migrations, leases, namespaces, advisory locks and connection errors: the transaction is an atomic step with rollback.
* The snapshot size limit, the scenario id, policy rule and metadata columns of an event row, and wall-clock durations.
* Injected delays: they suspend a call before its transaction and change nothing else.
* Schema validation of tool arguments: a request arrives as typed data, as refused arguments or as an unknown tool.
* The uniqueness constraint on event ids: over any run within the clock's range `WorldRuns.SortedEvidence` shows it is never violated.
* The upper end of the calendar: the clock is unbounded, where the code would overflow at year 10000.
* Floating point: timestamps, rates, percentiles and intervals are exact, so rounding of the clock to milliseconds is a division.
* Runner budgets, timeouts and injections, the LangGraph and OpenAI SDK runtimes, and the provider's own retries.
* Turn metadata such as token counts and response ids, and the translation of provider failures into error classes.
* The construction of an outcome signature: its digest is a field of the run record.
* Run ids, verdict ids, event ids and representative evidence inside a failure change, and the hashes, names and commands of a report.
* The requested repetitions copied into a summary, and its tool and mutation counters, which are built like the terminal counter.
* The practical-significance setting, which the comparison never reads.
* Role metrics and their differences in a contextual record: sums that do not enter the verdict.
* Python's equality of `True` and `1` in compared JSON values, and non-dictionary rules of the changed-entities assertion.
* Splitting a dotted path at its dots, and digits outside ASCII in a path component.
* The text of prompts, the other assertion primitives, and the commerce policies, whose world is not part of this model.
* Seed-only tables in the diffs of a run have one field per row, because no event reaches them.
- Statistics.WilsonBounds: takes the square root as a parameter, because the reals here have no root function.
- Adapter.NativeAdapter.CancelAdapter: stops after closing the bridge, because awaiting the runtime and the provider is foreign code.
- InsuranceInvariants.MoneyInvariant: starts from any sound state rather than a seed, and `SeedsSound` shows that every seed gives one.
- GateLaws.NewCriticalFails: is about runs of listed scenarios only, because the comparison looks at no others.

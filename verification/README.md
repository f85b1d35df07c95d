# Container audit: crash and concurrency guarantees in Dafny

The container-audit workstation keeps working through crashes, lost
acknowledgements and concurrent workers.  This project models the stateful cores
that make that possible and proves what they guarantee, over every interleaving
and every input.

`dafny verify dfyconfig.toml` checks the whole project.

## How the model is laid out

| files | what they model |
|---|---|
| `Receipts`, `Verdicts`, `ReviewEvidence` | how one server answer, and one file of operator evidence, is judged; `Verdicts` says it on the answer's own fields |
| `RelayQueue`, `RelayProtocol`, `RelayFencing`, `RelayTokens`, `RelaySequences`, `RelayEffects`, `RelayTiming`, `RelayOutcomes`, `RelayEnqueue` | the DirectSync relay: one function per SQLite transaction, a store that performs them in place, every interleaving of workers, lease expiry, pauses, operators and token traffic |
| `Ordering`, `Members`, `Topology`, `TopologyNormal`, `TopologyMeaning`, `TopologyAcceptance`, `TopologyExpected`, `TopologyEdges`, `TopologyExample`, `ExchangeEvidence`, `ExchangeMeaning` | what the client accepts of a proposed label topology and of a prepared exchange |
| `ExchangeProtocol`, `ExchangeStructure`, `ExchangeReadiness`, `ExchangePrinting`, `ExchangeProvenance`, `ExchangeOutcome`, `ExchangeReprint` | the journaled prepare / print / complete / activate protocol of both label workflows |
| `SerialWriter`, `ScanHold` | the two-thread hold writer and the durable scan FIFO |
| `Outbox`, `Catalog`, `PinnedMove`, `PairedHandoff`, `ReplacementDelta` | event projection, the authenticated catalog cache, file ownership moves, tray corrections |

Conventions: hashes and HMACs are injective, so a digest is the value it was
computed from; time is an integer; a file is an optional value and an atomic write
or rename is one step; texts are already in one Unicode normal form.  The server,
the printer, crashes, other workstations and other writers are steps of the
environment.  A concurrent protocol is a `World`, an `Apply` for one step and a
`Run` for a sequence of steps; a step that is not enabled leaves the world alone.
State the program updates in place is a class whose methods are tied to the same
transition functions.

## Where a promised property needs a condition

The code is modelled as it is.  Each of these is proved in the exact form stated.

- A journal started from an accepted answer resumes exactly when the server wrote
  the scope without outer blanks and the process as `transfer`; an answer spelling
  it `TRANSFER` is accepted and its journal never resumes
  (`RecoveryAcceptsExactly`, `UpperCaseProcessStrandsTheJournal`).
- A worker reads its claim back after the lease was committed, outside any
  transaction.  Over a run, everyone who passes the guard of a row's writes owns the
  lease behind it exactly when every read-back that finds its row leased finds the
  attempt count its own commit wrote.  Otherwise two workers can hold one lease; a
  caller can refuse such a claim by comparing the attempt count read with the one
  selected plus one (`FencingExactly`, `TwoWorkersPass`).
- A file the server took is recorded as committed, and so never uploaded again,
  exactly when the worker's claim still holds the row, the answer is not a redirect,
  and the authority accepts the transaction: a rotation must find the instance that
  presented the token, unassigned or assigned to this row.  A redirected commit
  becomes claimable by an operator retry; an acknowledgement that meets a reissued
  identity is rolled back and its file falls due again (`CommitRecordedExactly`,
  `RedirectedCommitBecomesClaimable`, `AcknowledgementCanBeLost`).
- A reservation of the rotating token ends exactly under `EndsReservation`.  That
  includes a row which never owned it: its failed upload quarantines the authority
  of the whole credential scope, and the owner is left with a token nobody accounts
  for (`ReservationEndsExactly`, `ForeignFailureOrphansReservation`,
  `ReservationCanBeOrphaned`).
- In every run, whatever the server does, for a label no other workstation made
  ready: an unconfirmed submission to this workstation's printer is a repeat of its
  label and attempt number exactly when printing was started from a target journaled
  as completed, or as pending activation.  For a label another workstation made ready
  such a start can be the first submission.  A repeat takes a server which took this
  very label back; from every state at rest, in either workflow, it does happen then
  (`UnconfirmedRepeatExactly`, `FirstFromDoneIsForeign`,
  `FirstSubmissionFromCompleted`, `PrintedAtMostOnce`, `TakenBackPrintsAgain`).
- An activate is sent with a target not ready exactly when the server took that
  target back between the client's last read and the call and it is not ready again
  (`ActivateMissesExactly`).
- Scans of a hold are lost exactly when a quarantine or a restore finds an identical
  copy of a hold with scans and unlinks one of the two.  That takes two holds of one
  worker, master and epoch started within one second; their scans share ids
  (`NothingLostExactly`, `DropNeedsSameSecond`, `ScanIdsExactly`,
  `SameSecondLosesAScan`).
- An undone replacement is itself accepted exactly when the removed barcodes carry
  the item code (`SwappedDeltaRestores`).

## Model

| member | source | states |
|---|---|---|
| `Receipts.CommittedExactly` | direct_sync_push.py:1219-1342 | an answer is treated as committed if and only if it is a 2xx, or its body says so and it is not a redirect |
| `Receipts.CommittedIsNotRetryable` | direct_sync_push.py:1219-1342 | a committed answer is never retryable and never gives its token back; success implies committed |
| `Receipts.SuccessConserves` | direct_sync_push.py:1103-1153 | success and the dead-fence acknowledgement come only with a 2xx receipt for this batch whose inserted plus replayed rows are the source rows, with no error and no quarantine |
| `Receipts.HeaderDelayIsLeast` | direct_sync_push.py:1048-1066 | a Retry-After delay is the least whole number of seconds not earlier than asked, clamped to a day; anything asked beyond a day is a day |
| `Receipts.BackoffBounds` | direct_sync_push.py:2458-2466 | the back-off lies between one and six base delays, and jitter adds at most its bound to the delay without it |
| `Receipts.BackoffGrows` | direct_sync_push.py:2458-2466 | the first attempt waits one base delay, each further one a base delay more up to the fifth, and later ones as long as the fifth |
| `Receipts.RetryIsBounded` | direct_sync_push.py:2872-2880 | whatever ended the drain, a row waits if and only if it is to be retried, never into the past and at most a day or six base delays ahead |
| `Receipts.VerdictIsSafe` | direct_sync_push.py:2944-3072 | whatever ended the drain, a committed answer becomes acked or a review marked committed, an acked row accounts for every source row, and an authority action only accompanies a terminal status |
| `Verdicts.RetriedExactly` | direct_sync_push.py:986-1342 | told on the report's own fields: a row is retried if and only if the upload met a transport error, its preparation may be retried and needs no review, or the answer is refused and asks for a retry by its body or one of six status codes, names no review and refuses no legacy replay |
| `Verdicts.RetryTimeExactly` | direct_sync_push.py:2944-3072 | the retry time is now plus the header's delay, or plus the back-off when no header was sent |
| `Verdicts.AckedExactly` | direct_sync_push.py:2944-3072 | a row is acknowledged if and only if a 2xx receipt for this batch is clean, complete and adds up, and its lease rotated the token, was taken as legacy, was not asked for, or died with the authority still bound |
| `Verdicts.FailedExactly` | direct_sync_push.py:2944-3072 | a row fails for good if and only if its file is unusable or changed, its preparation may neither be retried nor reviewed, or the answer is a redirect or a refusal nobody asks to retry or review |
| `Verdicts.ReleasedExactly` | direct_sync_push.py:2944-3072 | the token is given back if and only if the server said nothing was committed and the row failed for good |
| `Verdicts.RotatedExactly` | direct_sync_push.py:944-1342 | a successor token is stored if and only if a committed receipt consumed the upload's own; it is the next in sequence, under the same fence, until the receipt's time |
| `Verdicts.DisabledExactly` | direct_sync_push.py:2944-3072 | runtime leasing is switched off if and only if a clean committed receipt was taken as a legacy upload |
| `Verdicts.QuarantinedExactly` | direct_sync_push.py:2944-3072 | an answer quarantines the authority if and only if its row ends neither retried nor acknowledged and its token was neither rotated, given back nor taken as legacy |
| `Verdicts.ReviewedExactly` | direct_sync_push.py:2944-3072 | every other row waits for the operator |
| `Verdicts.CodeExactly` | direct_sync_push.py:2944-3072 | the code a row ends under: its preparation's, the refusal's when it names a review, or the name of what went wrong here |
| `Verdicts.ScopedExactly` | direct_sync_push.py:2944-3072 | the credential scope is passed along if and only if credentials were used and no answer merely puts the row back |
| `Verdicts.ReceiptKept` | direct_sync_push.py:2944-3072 | the row keeps the answer's own totals, flags and ids |
| `ReviewEvidence.CommittedReviewSemanticsValid` | direct_sync_operator.py:237-336 | the loop over growing seen-sets accepts exactly the evidence in which every row is proved and no id, identity or resolving event repeats |
| `ReviewEvidence.ClashesIsRepeat` | direct_sync_operator.py:237-336 | a value is in a seen-set if and only if an earlier row proved it |
| `ReviewEvidence.ProofExactly` | direct_sync_operator.py:237-336 | a row is proved if and only if it is identified and is a local-only test start the manifest denied in a historical resolution, or carries the very event its resolution asks for; it proves that id, identity and event |
| `ReviewEvidence.EvidenceCounts` | direct_sync_operator.py:237-336 | n accepted rows stand for n identities, and resolving events plus local-only rows number n |
| `RelayQueue.RelayStore.ResetStaleLeases` | direct_sync_push.py:2122-2148 | exactly the expired leases become pending, with attempts and token kept, and none is left |
| `RelayQueue.RelayStore.CommitLease` | direct_sync_push.py:2217-2272 | stale leases are reset, then the row is leased if and only if it is pending or waiting to be retried and its retry time is absent or has come; the result is what the transaction wrote, and every other row is only reset |
| `RelayQueue.RelayStore.ReadBackClaim` | direct_sync_push.py:2273-2282 | the claim read after the commit is the written one while that lease stands, and passes the guard whenever anyone's lease does |
| `RelayQueue.RelayStore.ReleaseAfterPause` | direct_sync_push.py:2492-2542 | a pause gives the attempt back if and only if the claim still holds the row, keeps its token and its retry time, and leaves every other row |
| `RelayTiming.RetriedRowWaits` | direct_sync_push.py:3033-3046 | in every run, after a finish under a current claim whose report is to be retried, the row is not leased by any step before now plus the delay asked for or the back-off, unless the operator retries it |
| `RelayTiming.WaitingRowWaits` | direct_sync_push.py:2167-2234 | a row waiting until a time waits through every run of earlier steps that are no operator retry of it |
| `RelayTiming.DueRowIsLeased` | direct_sync_push.py:2167-2234 | from that time on the next lease step takes it |
| `RelayQueue.RelayStore.SetClaimedStatus` | direct_sync_push.py:2287-2455 | the guarded update, the authority action and the token scrub happen together, or a lost lease or a fault leaves everything as it was |
| `RelayQueue.RelayStore.RetryDead` | direct_sync_operator.py:854-1112 | a dead row falls due, stripped of receipt and token but with its attempts and source, if and only if the operator may retry it; every other row is untouched |
| `RelayQueue.RelayStore.ResolveCommittedReview` | direct_sync_operator.py:1156-1600 | a review becomes acked if and only if receipt, totals, files and evidence all agree; the receipt is untouched |
| `RelayFencing.FencingExactly` | direct_sync_push.py:2122-2542 | over a whole run from the empty queue, everyone who passes a guard took the lease behind it, if and only if every read-back that finds its row leased finds the attempt count its own commit wrote |
| `RelayFencing.OneWorkerPasses` | direct_sync_push.py:2287-2336 | then at most one worker can write a row, with all workers sharing one worker id |
| `RelayFencing.StaleWorkerIsPowerless` | direct_sync_push.py:2287-2336 | a worker whose lease was reset, overtaken or given back cannot change the queue under its claim, nor its row by reading back or by lease traffic, in any continuation with such read-backs |
| `RelayFencing.PauseFenced` | direct_sync_push.py:2492-2542 | lowering the attempt count in a pause keeps the fence, because every other claim on the row is behind it |
| `RelayFencing.ClaimsStayDistinct` | direct_sync_push.py:2203-2212 | when every read-back finds the selected attempt count plus one, outstanding claims on a row have pairwise distinct attempt counts in every run |
| `RelayFencing.LateReadIsImproper` | direct_sync_push.py:2273-2282 | any other read-back of a leased row gives its worker a lease it did not take, at once |
| `RelayFencing.TwoWorkersPass` | direct_sync_push.py:2203-2212 | a state with two workers holding one row, owner and attempt count is reachable, and every run to it has such a late read-back |
| `RelayTokens.TokenHasOneHolder` | producer_runtime_client.py:802-1062 | in every run no two rows hold one token, no row holds one still on offer, the assigned row is alive and holds its token, and no terminal row keeps a raw token |
| `RelayTokens.RunSound` | producer_runtime_client.py:473-1062 | the token invariant (lineages apart, requests accounted for, reservation bound to a live row) survives every run, late read-backs included |
| `RelayTokens.LeaseTrafficSound` | producer_runtime_client.py:473-735 | requests, grants, invalid grants, refusals and reissues keep it and keep every reservation |
| `RelayTokens.ReservationEndsExactly` | direct_sync_push.py:2337-2448 | a step ends a reservation if and only if it is a finish under the stated condition; no grant, expiry or operator step does |
| `RelayTokens.TerminalEndsReservation` | direct_sync_push.py:2337-2448 | a row that turns terminal while assigned ends its reservation in that step in exactly one of apply, release, expire, disable, quarantine |
| `RelayTokens.ForeignFailureOrphansReservation` | kmtech_shared/runtime.py:600-639 | an upload that raises for another row takes the reservation from its owner, which keeps the token |
| `RelayTokens.ReservationCanBeOrphaned` | kmtech_shared/runtime.py:600-639 | such a state is reachable from an empty queue |
| `RelaySequences.SequencesFollowRotations` | producer_runtime_client.py:473-1097 | in every run each token, held by a row or by the authority, carries the sequence its grant named plus one for every rotation since |
| `RelaySequences.RotationStored` | producer_runtime_client.py:1077-1097 | a finish whose receipt rotates the token writes nothing when the authority is in other hands, and otherwise leaves the successor with it, one further, same instance and fence, until the receipt's time, free |
| `RelayEffects.ReservedExactly` | producer_runtime_client.py:739-1062 | a row gets the token if and only if its claim holds, it has none and is not legacy, and the authority has one free that outlives the upload; the token then leaves the authority for that row |
| `RelayEffects.AskedExactly` | producer_runtime_client.py:473-735 | a lease is asked for if and only if no request is under way, the authority is neither reviewed nor off, and the token is not out to another row; the request is a renewal exactly when a token and fence are held |
| `RelayEffects.ReissuedExactly` | producer_runtime_client.py:355-440 | an identity is thrown away if and only if it was switched off and is enforced again, its review is provably over, or it ran out unused |
| `RelayEffects.GrantedExactly` | producer_runtime_client.py:473-735 | a grant is taken if and only if it answers the request under way and no row holds a token; a refusal of that request puts the authority to review and keeps what it holds |
| `RelayEffects.QuarantineStored` | producer_runtime_client.py:1099-1119 | a quarantine drops token, reservation and request, and reaches the authority that reserved for this row, or any within the credential scope |
| `RelayEffects.IdleStored` | direct_sync_push.py:2337-2448 | a verdict that asks nothing of the authority leaves it alone, unless its code is a lease code or the row ends with the token still out to it; then the authority is quarantined |
| `RelayEffects.ReleaseStored` | producer_runtime_client.py:1121-1140 | a token given back is the authority's again under its old sequence; another row's token stays out; a row that cannot show the instance and fence it was lent under puts the authority to review |
| `RelayEffects.ForgottenExactly` | producer_runtime_client.py:1142-1190 | switching to legacy forgets everything but the instance; a dead fence replaces the identity if and only if the authority is active and still carries the row |
| `RelayEffects.FinishedRowExactly` | direct_sync_push.py:2287-2455 | a finish that writes leaves its row with the verdict, without lease and, if terminal, without token, and every other row alone |
| `RelayEffects.GivenBackExactly` | direct_sync_push.py:2492-2542 | a pause gives the row back as it was found, one attempt less, and leaves authority and other rows alone |
| `RelayEffects.OperatorRetryExactly` | direct_sync_operator.py:854-1112 | a row is sent again if and only if its copy is intact, nobody leases it, it failed for good or is in a review whose receipt marks nothing committed, and its code is expected |
| `RelayEffects.ReviewClosesExactly` | direct_sync_operator.py:1156-1600 | a review is closed if and only if the operator named its file, the receipt is this batch's, committed there and here and accounts for every row, and each quarantined row is proved |
| `RelayOutcomes.CommittedNeverUploadedAgain` | direct_sync_push.py:2944-3072 | in every run from the empty queue, once a committed answer is recorded the row is acked or in a committed review and is not claimable in any continuation of drains, resets, enqueues and operator retries |
| `RelayOutcomes.CommitRecordedExactly` | direct_sync_push.py:2337-2448 | a file the server took is recorded as committed by a finish if and only if the claim is current, the answer is no redirect and the authority accepts, spelled out on instance, assigned row, status and fence |
| `RelayOutcomes.AcknowledgementCanBeLost` | kmtech_shared/runtime.py:573-578 | a state is reachable in which a clean acknowledgement is rolled back and the file falls due again |
| `RelayOutcomes.RedirectedCommitBecomesClaimable` | direct_sync_operator.py:912-981 | from any current claim, any redirect that says committed, followed by an operator retry, leaves the row claimable and unrecorded |
| `RelayOutcomes.AckedIsAbsorbing` | direct_sync_push.py:2122-2455 | an acked row never changes again |
| `RelayOutcomes.AckedRowsAreConserved` | direct_sync_operator.py:1443-1507 | in every run an acked row has no errors and inserted + replayed + quarantined = source rows; anything quarantined is backed by that many distinct identities, each local-only or with a resolving event of its own |
| `RelayEnqueue.RelaySpool.FindConflicting` | direct_sync_push.py:1899-1920 | a conflict is found if and only if a row of the same source has another fingerprint |
| `RelayEnqueue.RelaySpool.FindExisting` | direct_sync_push.py:1872-1896 | a row is returned if and only if one with this fingerprint exists |
| `RelayEnqueue.RelaySpool.Enqueue` | direct_sync_push.py:1967-2119 | one row per source, refused without change if and only if a row of the same source has another fingerprint; a new file is queued, a queued one reused; every row keeps its spool copy through an ambiguous commit, a good copy is never overwritten and at most one is repaired |
| `RelayEnqueue.RelaySpool.ReuseExisting` | direct_sync_push.py:2010-2021 | a duplicate rewrites only the bad copy of its own waiting row, and refuses if and only if that copy is bad and the source changed |
| `RelayEnqueue.RelaySpool.EnqueueNew` | direct_sync_push.py:2022-2119 | the answer is the new id if and only if the copied bytes are the planned ones and the commit took or is found to have taken; the row appears exactly when the commit took, and the copy goes exactly when no row can stand for it |
| `Ordering.SortedEqualityIsPermutation` | phs_reconciliation_workflow.py:1072-1085 | when the expected keys are distinct, equality of the key-sorted lists is multiset equality |
| `Members.CanonicalIsCanonical` | phs_reconciliation_workflow.py:83-99 | an accepted member list is clean, duplicate-free, sorted and a permutation of the stripped input |
| `Members.CanonicalDecidesMembers` | phs_reconciliation_workflow.py:83-99 | clean lists have the same canonical form if and only if they have the same members |
| `Topology.NormaliseActions` | phs_reconciliation_workflow.py:414-552 | the accumulating loop yields the normal actions, or nothing at the first refused one |
| `Topology.ValidateResolution` | phs_reconciliation_workflow.py:314-663 | the validation as performed equals the specification whose exact condition, kind, projection and conservation laws follow |
| `TopologyAcceptance.AnswerAcceptedExactly` | phs_reconciliation_workflow.py:314-663 | on the fields as sent: an answer is accepted if and only if its header and scan agree, each action's sources partition the members its digest covers and its targets receive them, no label, instruction or member occurs twice, links agree and the mode says what the actions are |
| `TopologyAcceptance.ActionAcceptedExactly` | phs_reconciliation_workflow.py:414-552 | one action is accepted if and only if its sources' members, its member ids, its process rows and, in a split, its targets' lists are partitions of one and the same member set, with quantities to match |
| `TopologyMeaning.AcceptedKindExactly` | phs_reconciliation_workflow.py:615-640 | the exchange is single if and only if the one action says EXCHANGE_DATE, a batch if and only if two or more all do, a split or a merge if and only if the one action says so; the mode says the same |
| `TopologyMeaning.AcceptedActionsKept` | phs_reconciliation_workflow.py:414-552 | accepting changes the spelling of keywords and the arrangement of member lists and nothing else, and every accepted action's sources, targets, digest and process rows count the same |
| `TopologyNormal.NormalActionFixed` | phs_reconciliation_workflow.py:542-551 | a normal action normalises to itself |
| `TopologyNormal.RevalidationIsIdentity` | phs_reconciliation_workflow.py:314-663 | validating an accepted answer again accepts it with the same actions, kind and hash |
| `TopologyExample.SplitIsAccepted` | phs_reconciliation_workflow.py:314-663 | a split of one label over two targets is accepted unchanged and its journal recovers, so the laws of accepted answers are not vacuous |
| `TopologyNormal.RecoveryAcceptsExactly` | phs_reconciliation_workflow.py:1259-1298 | the recovery check passes if and only if the raw scope and process are already normal |
| `TopologyNormal.UpperCaseProcessStrandsTheJournal` | phs_reconciliation_workflow.py:340-350 | every accepted answer has a sibling that is accepted and cannot be recovered |
| `TopologyExpected.AcceptedTopologyConserves` | phs_reconciliation_workflow.py:706-808 | for every accepted answer the expected topology exists, target memberships are pairwise disjoint, their union is the multiset of source members, sizes are the quantities and edge counts sum to the union |
| `TopologyExpected.ActionConserves` | phs_reconciliation_workflow.py:718-808 | each date exchange, split and merge hands on exactly its members, split over its targets by quantity |
| `TopologyExpected.DeriveExpected` | phs_reconciliation_workflow.py:706-808 | the loop filling the dictionaries and edge list computes that topology |
| `TopologyEdges.ExpectedEdgesExactly` | phs_reconciliation_workflow.py:718-808 | for every accepted answer, each edge joins a source and a target of one action, in the role of the action's type, with the source's instruction and the digest and number of exactly the members both hold; every source is joined with every target; a target holds its own part of a split and all members otherwise |
| `ExchangeEvidence.ItemsAcceptedExactly` | phs_reconciliation_workflow.py:1001-1100 | against an accepted context the item check passes if and only if the items are a permutation of the expected edges, indexed 1..n and aimed at issued labels, with every target ready when READY or COMMITTED |
| `ExchangeEvidence.EveryTargetHasAnItem` | phs_reconciliation_workflow.py:1001-1100 | an accepted exchange has at least one item for every target label |
| `ExchangeEvidence.CheckItems` | phs_reconciliation_workflow.py:1001-1100 | the pass that collects readiness flags per label decides that check |
| `ExchangeEvidence.AllEdges` | phs_reconciliation_workflow.py:706-808 | expected edges have distinct source and target pairs and reach every target |
| `ExchangeMeaning.ExchangeAcceptedExactly` | phs_reconciliation_workflow.py:811-1100 | an exchange passes if and only if its header counts what the answer does, every source and target has its one label with its members, versions and state, no label is left over, and the items are the expected edges under the issued labels, numbered from one |
| `ExchangeMeaning.AcceptedExchangeConserves` | phs_reconciliation_workflow.py:811-1100 | in every accepted exchange items, target labels and header count the same members, those the answer's actions hand over |
| `ExchangeStructure.OneExchangePerOperation` | phs_reconciliation_workflow.py:1471-1526 | over any crashes and lost answers a journal operation creates at most one exchange |
| `ExchangeStructure.CancelledCreatedNothing` | phs_label_workflow.py:1260-1270 | an operation that ended CANCELLED created no exchange |
| `ExchangeStructure.CommittedOnlyAfterTheServer` | phs_label_workflow.py:1608-1676 | COMMITTED, or a pending local refresh, is journaled only for an exchange the server committed |
| `ExchangeStructure.RequestsReuseTheirKey` | phs_reconciliation_workflow.py:1632-1731 | every print request, first or resumed, carries the key of its target and attempt number |
| `ExchangeStructure.UnfinishedJournalIsKept` | phs_label_workflow.py:1076-1111 | no step of either workflow replaces an unfinished journal |
| `ExchangeStructure.UnfinishedJournalSurvives` | phs_reconciliation_workflow.py:1246-1333 | over any run the journal changes operation only after it was finished |
| `ExchangeStructure.StartsExactly` | phs_reconciliation_workflow.py:1246-1333 | a start resumes an unfinished journal if and only if it is of its own workflow and of the tray, instruction or reconciliation it names, and begins a new one only when none is unfinished; while an execution runs it changes nothing |
| `ExchangeStructure.ActivateIsJournaled` | phs_reconciliation_workflow.py:1861-1895 | in every run an activate is only sent once the journal says it is pending |
| `ExchangeStructure.FinishExactly` | phs_label_workflow.py:1608-1720 | what the server committed is journaled as committed, except a single exchange whose tray was not refreshed, which waits for the confirmation that names it |
| `ExchangeStructure.ReportsAnswered` | phs_reconciliation_workflow.py:1384-1431 | a report that does not fit the attempt at the server stops the client and changes nothing; one that fits settles the attempt, and a success makes the target ready |
| `ExchangeReadiness.ActivateMissesExactly` | phs_reconciliation_workflow.py:1861-1895 | in every run a target is missing when an activate is sent if and only if the server took it back since the client's last read and it is not ready again |
| `ExchangeReadiness.ActivateOnlyWhenReady` | phs_reconciliation_workflow.py:1861-1895 | against a server that never takes a target back every activate is sent with no target missing |
| `ExchangePrinting.RepeatStartsFromDone` | phs_reconciliation_workflow.py:1597-1859 | in every run an unconfirmed repeat was started from a target journaled done |
| `ExchangePrinting.RequestedWasNeverSubmitted` | phs_reconciliation_workflow.py:1743-1800 | a target journaled as requested was never submitted under its number |
| `ExchangePrinting.PrintedAtMostOnce` | phs_reconciliation_workflow.py:1597-1859 | in every run a second submission of a label's attempt number to this workstation's printer was confirmed by the operator, or the server had taken that very label back; across crashes, journals and both workflows, whatever other workstations do at the server |
| `ExchangePrinting.SteadyPrintsOnce` | phs_label_workflow.py:1376-1601 | against a server that never takes a target back every repeat was confirmed |
| `ExchangeProvenance.UnconfirmedRepeatExactly` | phs_reconciliation_workflow.py:1597-1859 | in every run, for a label no other workstation made ready, an unconfirmed submission is a repeat if and only if printing was started from a target journaled done |
| `ExchangeProvenance.FirstFromDoneIsForeign` | phs_label_workflow.py:1376-1601 | in every run, a first submission started from a target journaled done is of a label another workstation made ready |
| `ExchangeProvenance.RunKeepsProvenance` | phs_reconciliation_workflow.py:1528-1859 | in every run, what is ready or journaled done under an attempt was taken by this printer and reported, or made ready by others; what is journaled printed was taken; what is journaled failed was reported failed |
| `ExchangePrinting.SubmitOnce` | phs_label_workflow.py:1376-1601 | the submission step, taken by the printer or not, keeps the printing invariant |
| `ExchangeOutcome.ReportedWasTaken` | phs_reconciliation_workflow.py:1801-1859 | in every run, in both workflows, every attempt reported as succeeded has a submission of that label and number which the printer took |
| `ExchangeOutcome.JournaledWasTaken` | phs_reconciliation_workflow.py:1743-1859 | in every run the latest submission of a target journaled as printed or pending completion was taken by the printer, as was that of a target completed under an attempt, which was reported too, unless another workstation made the label ready |
| `ExchangeOutcome.NotTakenIsJournaled` | phs_reconciliation_workflow.py:1373-1431 | in every run a target whose latest submission the printer did not take is journaled as just starting, as failed with the report pending, or as failed |
| `ExchangeOutcome.NotTakenFailsFirst` | phs_reconciliation_workflow.py:1373-1431 | for such a target no step sends anything but the report of its failure, once journaled, or a print the operator confirmed; it gets a new attempt number only after the failure was reported |
| `ExchangeReprint.NextTargetPrints` | phs_reconciliation_workflow.py:1626-1797 | from any state at rest, the first target not ready is submitted by the next execution if it was requested, is journaled done, or was found at its start and confirmed |
| `ExchangeReprint.NextTargetRequests` | phs_reconciliation_workflow.py:1632-1731 | from any state at rest, the first target not ready is requested by the next execution: again under its pending number, or under the next number if it was never requested or its print failed |
| `ExchangeReprint.NextTargetReports` | phs_reconciliation_workflow.py:1801-1859 | one that was printed is reported as succeeded by the next execution, and not printed again |
| `ExchangeReprint.NextTargetFails` | phs_reconciliation_workflow.py:1384-1431 | one whose failure is still to be told is reported as failed |
| `ExchangeReprint.UnconfirmedStops` | phs_reconciliation_workflow.py:1743-1760 | found at its start and not confirmed it is not submitted, and its journal entry stays |
| `ExchangeReprint.ReadyCommits` | phs_reconciliation_workflow.py:1861-1930 | from any state at rest with every target ready the next execution, left alone, commits at the server and in the journal and prints nothing |
| `ExchangeReprint.TakenBackPrintsAgain` | phs_reconciliation_workflow.py:1626-1797 | from any state at rest, in either workflow, a target journaled done that is taken back is submitted again under its old number without confirmation |
| `ExchangeReprint.UnconfirmedReprint` | phs_reconciliation_workflow.py:1597-1859 | two unconfirmed submissions of one attempt are reachable, the second from a completed target, and only with a server that took a target back |
| `ExchangeReprint.FirstSubmissionFromCompleted` | phs_reconciliation_workflow.py:1597-1859 | a run in which a label another workstation made ready is submitted for the first time from a completed target, so the exception is needed |
| `SerialWriter.SubmissionOrder` | preflight_scan_hold.py:488-542 | in every interleaving callbacks come in the order of the runs, each with its run's outcome, and tasks run in the order they were accepted |
| `SerialWriter.ClosedMeansDrained` | preflight_scan_hold.py:523-584 | closed, or any drain callback, means every accepted task was run, its outcome called back, the worker gone, and each drain asked for called back once |
| `SerialWriter.ClosedIsFinal` | preflight_scan_hold.py:544-584 | after closing nothing changes but the count of drain callbacks |
| `SerialWriter.ClosingCanFinish` | preflight_scan_hold.py:503-584 | from every state of every run some schedule of the two threads closes the writer with everything accepted run and called back |
| `SerialWriter.SubmitExactly` | preflight_scan_hold.py:488-502 | a submission is accepted if and only if the writer is open and its queue has room, and otherwise changes nothing |
| `SerialWriter.QueueIsBounded` | preflight_scan_hold.py:462-502 | the queue never holds more than its capacity, which is at least one |
| `ScanHold.HoldStore.StartHold` | preflight_scan_hold.py:221-255 | starts a hold, returns the same worker and master's hold, or refuses without change |
| `ScanHold.HoldStore.AppendScan` | preflight_scan_hold.py:257-287 | appends one scan with the next number only while looking up and below capacity |
| `ScanHold.HoldStore.MarkHoldFailed` | preflight_scan_hold.py:304-316 | accepted in every phase, keeps the scans |
| `ScanHold.HoldStore.MarkHoldOffline` | preflight_scan_hold.py:289-302 | only while looking up; records the error and keeps the scans |
| `ScanHold.HoldStore.ResumeHold` | preflight_scan_hold.py:318-332 | the same worker and master bring the hold back to lookup with its scans |
| `ScanHold.HoldStore.QuarantineHold` | preflight_scan_hold.py:380-416 | the whole hold moves to quarantine |
| `ScanHold.HoldStore.StartDraining` | preflight_scan_hold.py:334-353 | an empty hold disappears, another one drains |
| `ScanHold.HoldStore.Acknowledge` | preflight_scan_hold.py:356-378 | only the head leaves, and the last one removes the file |
| `ScanHold.HoldStore.RestoreHold` | preflight_scan_hold.py:419-443 | a quarantined hold comes back unless another one is active |
| `ScanHold.FifoIsConserved` | preflight_scan_hold.py:221-443 | in every run, for any hold on disk, acknowledged scans followed by held scans are the admitted scans of its incarnation; held numbers are contiguous and within capacity |
| `ScanHold.ScanIdsExactly` | preflight_scan_hold.py:221-287 | in every run two scans share an id if and only if they have the same number in incarnations of one worker, master, epoch and second |
| `ScanHold.NothingLostExactly` | preflight_scan_hold.py:334-443 | every incarnation off the disk was acknowledged to its last scan if and only if no quarantine or restore of the run unlinked a file with scans as a copy |
| `ScanHold.DropNeedsSameSecond` | preflight_scan_hold.py:380-443 | such an unlinking needs two incarnations started with one identity within one second |
| `ScanHold.SameSecondLosesAScan` | preflight_scan_hold.py:400-408 | start, scan, quarantine, twice in one second: two scans admitted, none acknowledged, one left |
| `Outbox.EventOutbox.PersistUnstaged` | event_log_store.py:49-56 | payloads are staged in order under rising numbers; a write that raises loses nothing and at worst stages one payload twice |
| `Outbox.EventOutbox.Stage` | event_log_store.py:42-47 | a returned stage means the entry is on disk, a raised one keeps it in memory |
| `Outbox.EventOutbox.AppendIdempotent` | event_log_store.py:168-240 | the row is added unless its identity is there; other details under one identity are refused without change |
| `Outbox.EventOutbox.Drain` | event_log_store.py:58-76 | files are projected in staging order and deleted only with their row in the log; a full drain leaves the projection of everything ever staged |
| `Outbox.EventOutbox.Restart` | event_log_store.py:28-35 | a new process loses only memory and keeps numbers above the files left |
| `Outbox.OutboxGuarantee` | event_log_store.py:25-76 | at any point there is one row per event and key, and a returned entry is still staged or has its row |
| `Outbox.ProjectsFirstsInOrder` | event_log_store.py:168-240 | the incremental projection equals the first payload of each new identity, in staging order |
| `Catalog.CatalogCache.WriteAuthenticatedCache` | item_catalog_sync.py:648-682 | however many of the three writes survive, the files are that prefix; all three make the new payload usable |
| `Catalog.CatalogCache.ReadOffline` | item_catalog_sync.py:685-798 | the catalog file if its authority authenticates it, else the recovery file, else nothing |
| `Catalog.CrashLeavesOldOrNew` | item_catalog_sync.py:982-1031 | after a completed refresh a crash behind any prefix of the next one, under the same authority on any port, leaves exactly the old payload (at most one write) or the new |
| `Catalog.ObservedNeverGoesBack` | item_catalog_sync.py:648-798 | over any refreshes, profiles and crashes the version an offline start observes never goes backwards |
| `Catalog.OfflineIsAuthentic` | kmtech_shared/catalog.py:108-149 | what is used offline was fetched whole, and fetched the same under the current host, source host, device and token |
| `Catalog.OnceWrittenAlwaysUsable` | item_catalog_sync.py:982-1031 | under one authority, whatever the port, the cache is usable from its first write on |
| `Catalog.ChangedIdentityIsRefused` | kmtech_shared/catalog.py:108-149 | a cache only ever written under another host, source host, device or token is never used |
| `Catalog.MovedPortIsAccepted` | kmtech_shared/catalog.py:108-149 | a server that only moved its port keeps the cache usable |
| `Catalog.WholeRefreshLeaves` | item_catalog_sync.py:982-1031 | a whole refresh leaves an enrolled payload in all three files and any other in the catalog alone |
| `PinnedMove.MovesConserveBytes` | pin_file_move.py:61-93 | interrupted anywhere, the protocol loses, copies and overwrites no bytes |
| `PinnedMove.ReturnsAreVerified` | pin_file_move.py:79-93 | whatever happens to the source meanwhile, a move returns only with the pinned bytes at the target and the source vacant |
| `PinnedMove.HeldBytesStay` | pin_file_move.py:61-77 | held bytes leave the target only for a vacant source and only if they are not the pinned ones |
| `PinnedMove.ChangedSourceIsPutBack` | pin_file_move.py:61-93 | a move that caught other bytes puts them back and raises |
| `PinnedMove.UndisturbedMoveExactly` | pin_file_move.py:61-93 | left alone a move ends; it returns if and only if the pinned bytes are in one slot and the other is vacant, and otherwise raises with every file where it was, except other bytes found in the target, which go to a vacant source |
| `PinnedMove.UndisturbedRecoveryExactly` | pin_file_move.py:61-93 | left alone a recovery says where the pinned bytes are if and only if the other slot is vacant |
| `PairedHandoff.HandoffStore.PrepareHandoff` | paired_preflight_handoff.py:328-355 | refused while another handoff is pending, otherwise both originals are recorded |
| `PairedHandoff.HandoffStore.MoveOriginal` | paired_preflight_handoff.py:357-377 | success means the slot is vacant and the archive holds the recorded bytes |
| `PairedHandoff.AtMostOnePending` | paired_preflight_handoff.py:266-355 | in every run at most one handoff is pending |
| `PairedHandoff.ReleasedOnlyWhenOwned` | paired_preflight_handoff.py:379-391 | a pair becomes released only with both archives equal to the record and both slots empty, and stays archived byte for byte |
| `PairedHandoff.ArchivesAreKept` | paired_preflight_handoff.py:357-377 | an archive is written once and never replaced, even when the slots change during a move |
| `PairedHandoff.SamePairIsRefused` | paired_preflight_handoff.py:328-377 | a released pair of identical originals is found again and its move refused |
| `PairedHandoff.HandoffCompletes` | paired_preflight_handoff.py:328-391 | left alone a new pair goes all the way in either order: both originals archived byte for byte, both slots empty, the pair released |
| `PairedHandoff.PendingExactly` | paired_preflight_handoff.py:266-355 | a handoff is refused as pending if and only if some record is neither released nor superseded |
| `PairedHandoff.SupersededLetsGo` | paired_preflight_handoff.py:266-355 | superseding the pending handoff lets the next one through and keeps its archives |
| `ReplacementDelta.AcceptedDeltaCorrects` | event_payloads.py:195-232 | an accepted delta corrects to a duplicate-free list of length original + added - removed and set (original + added) - removed |
| `ReplacementDelta.SwappedDeltaRestores` | event_payloads.py:166-232 | the swapped delta restores the original set and size, and is accepted if and only if the removed barcodes carry the item code |
| `ReplacementDelta.BarcodesExactly` | event_payloads.py:8-24 | a completion lists a set of barcodes if and only if some alias does, without duplicates, and every other alias is the same or empty |
| `ReplacementDelta.ContainsExactly` | event_payloads.py:195-232 | the item-code test is an occurrence at some offset |

## Left out

- HTTP, TLS, request signing, credential loading and the GDI printer: foreign calls; the server and the printer are steps that answer, fail or crash.
- Order of claiming in `claim_next_relay_batch`: the model leases any due row, which covers every order.
- Several credential scopes in one database: one scope and its authority row are modelled.
- Columns that only report (error messages, upload status artifacts, audit log, timestamps of rows): formatting.
- Byte-level validation of a catalog payload and of recovery files, and hostname letter case: a written file is readable and hosts are compared exactly.
- The last-good copy of the catalog: a copy of the recovery payload that no later read consults.
- The single workflow's adoption of an active source and its tray fields with their rollback: they precede or follow the protocol and would only add easy members.
- Field-by-field evidence of a single exchange (`_exchange_projection`): the reconciliation form of that check is modelled.
- The reconciliation link of a prepare answer (receipt and approved action ids): equality tests on the answer.
- Stale-current holds and manager bindings of the paired handoff: file reads with no effect on ownership.
- The bound of sixteen callbacks per pump and the join timeout's length in the serial writer: they affect when, not whether, a callback is invoked.
- Two outbox instances on one directory, torn CSV rows and Unicode normalisation differences.
- RelayQueue.RelayStore.RetryDead: does not rewrite an oversized legacy idempotency key, which is metadata no transition reads; unreadable metadata and a bad spool copy are one refusal flag.
- RelayQueue.RelayStore.ResolveCommittedReview: the spool copy and the upload-status file are one intact flag, and receipt totals are integers already, where the program parses them.
- PairedHandoff.HandoffStore.MoveOriginal: the branch without a PIN; the pinned branch is the `PinnedMove` module.
- ExchangeReadiness.ActivateOnlyWhenReady: the special case of a server that never takes a target back; `ActivateMissesExactly` is the general statement.
- ExchangePrinting.SteadyPrintsOnce: the special case of `PrintedAtMostOnce` for a server that never takes a target back.
- ExchangePrinting.PrintedAtMostOnce: speaks of this workstation's printer; two workstations on one linked exchange can each print the same requested attempt.

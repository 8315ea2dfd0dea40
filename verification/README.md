# Protocols and transformations of the video production back end

The back end turns a novel into delivered episodes. Between the model calls it relies on
protocols and transformations written by hand over SQLite rows, files and asyncio tasks. This
project models those and proves what they keep: over every run where they are protocols, for
every input where they are functions.

| module | what it models |
|---|---|
| `DeliveryLease` | the receipt row that gives one owner at a time the right to build or review a package |
| `DeliveryPromotion` | one package's build, from workspace to final directory, archive and published row, with crashes and takeovers between any two steps |
| `DeliveryApproval` | packages, artifacts, episode pointer and gate decisions under publish, orphan recovery, review and invalidation |
| `ConcurrencyGate` | the resizable priority semaphore, its heap of waiters and the hand-off on release |
| `ProviderSlots` | re-entrant slot calls by tasks on top of the gate |
| `SlotReconciliation` | the start-up pass that leaves each shot one local video job and keeps every provider liability |
| `IntegrityRepair` | the start-up script that deletes orphan and duplicate rows, with and without the cascade triggers |
| `MediaCleanup` | the cleanup outbox: claim, execution token, quarantine, verification, deletion, sweep |
| `OverlapSpans`, `ExcerptSplice` | the indexed search for repeated source text and the replacement of what it finds |
| `PlaceholderTexts`, `VerbatimLines` | the placeholders that protect allowed lines meanwhile: what `str.replace` does to texts that contain them |
| `HarmlessSources`, `OneLine` | which sources leave the placeholders alone; which texts come back around a single line |
| `ContinuityInheritance` | structured state carried along a storyboard, and the boundary issues it leaves |
| `ActionReplay` | replay of a shot's planned actions on facts, and the time they need |
| `ReplyStreamer` | streaming the reply string out of a JSON answer that arrives in chunks |
| `ChatRetry` | the dispatch loop of a chat call and the record of rejected response formats |
| `ChapterSplitting`, `HeadingRecovery` | cutting a novel into chapters, setting stubs aside, recovering missing headings |
| `Timeline` | cross-fading clips, the length of each transition, picture and sound in step |
| `Wrappers`, `PythonText` | Option and Result; white space and `str.strip` |

Code that updates rows, files or objects step by step is a class whose methods tie the new
state to the old one; protocols add an event type, a `Next` function and runs, and the main
lemmas range over all runs. A SQL transaction is one step. Owner ids, tokens and quarantine
names are values never drawn before. Hashes are injective tags. What comes from outside (the
clock, a provider's answer, what `lstat` saw, whether an authority snapshot drifted) is a
parameter of the step.

Where the code does less than its comments or its callers would hope, the model keeps the
code, a lemma gives the input or the run that fails, and another says exactly when the promise
holds:

- A stalled builder that lost its lease can still rename or delete at the final paths, so a
  published package can be purged (`DeliveryPromotion.PublishedPackageCanBePurged`). A stale
  step is harmless exactly when nobody counts on the path it changes
  (`DeliveryPromotion.StaleStepExact`).
- In the same way a published archive can be overwritten
  (`DeliveryPromotion.PublishedArchiveCanBeOverwritten`): an owner's archive rename finds the
  path taken exactly when another builder renamed an archive there after that owner's check
  (`DeliveryPromotion.ArchiveOverwrittenExact`).
- Each claim overwrites the record of the interruption before it, so a second interruption
  leaves remnants in the way (`DeliveryPromotion.TwoInterruptionsLeaveRemnants`). An owner that
  takes over gets past its check exactly when what lies at the final paths is recoverable
  (`DeliveryPromotion.TakeoverExact`); a stop is itself recovered
  (`DeliveryPromotion.StopAtCheckIsRecovered`).
- A second start-up pass can change a version row, because a closed job that shares a version
  hides what an owner or a polled job did to it (`SlotReconciliation.SharedVersionComesBack`);
  it changes none exactly when nothing was hidden (`SlotReconciliation.SecondPassExact`).
- One active version per shot holds exactly when no two owners with the last word on their
  versions name different versions of one shot (`SlotReconciliation.ActiveVersionsExact`).
- Without cascade triggers one repair run can leave orphans of the third level; when it does is
  given exactly, and two runs always suffice (`IntegrityRepair.OneRunWithoutTriggersExact`,
  `IntegrityRepair.TwoRunsSuffice`).
- A cleanup flush can return True although a sweep has retired its row
  (`MediaCleanup.TrueAfterASweep`); the row is completed exactly when no sweep came between
  the claim and the end (`MediaCleanup.TrueCompletesExactly`).
- A line that occurs in the placeholder of an earlier line breaks it, and the earlier line is
  lost (`ExcerptSplice.LetterInPlaceholder`). Clean prompts all come back exactly when no line
  does (`ExcerptSplice.CleanPromptsUnchangedExact`); the prompts may hold anything that does
  not read "MANJU_ALLOWED_VERBATIM_" with a digit behind it.
- A text that reads so can join a placeholder and take it (`OneLine.TextTakesPlaceholder`). A
  text around a single line comes back exactly when nowhere in front of the line there stands
  the placeholder short of its last one or two underscores (`OneLine.OneLineExact`), the
  underscores included that made it fresh.
- A source can hold a stretch that reaches into a placeholder, and takes that part with it
  (`ExcerptSplice.SourceTakesPlaceholder`). It leaves every prompt without underscores that
  repeats nothing of it as it is exactly when none of its windows of 24 characters reads like
  the inside of a placeholder, or like the end of one, text, and the beginning of another
  (`HarmlessSources.HarmlessExact`).
- A shot without actions is not held to its declared end facts (`ActionReplay.NoActionsExact`),
  and the phases of an action shadowed by another of its id are charged nothing
  (`ActionReplay.ShadowedPhaseIsFree`).
- An escaped surrogate pair is streamed as two code points (`ReplyStreamer.SurrogatePairStaysApart`);
  what is streamed is what `json.loads` decodes exactly when there is no such pair
  (`ReplyStreamer.StreamedIsDecodedExact`).
- One pass of stub removal can leave work for a second (`ChapterSplitting.OnePassIsNotEnough`);
  when it leaves none is given exactly (`ChapterSplitting.OnePassIsEnoughExact`).

## Model

| member | source | states |
|---|---|---|
| `DeliveryLease.ReceiptTable.Claim` | app/delivery.py:100-178 | a claim is granted to a fresh owner, answered with the stored result, or refused, by the row's binding, status and expiry; its compare-and-set never conflicts |
| `DeliveryLease.ReceiptTable.AssertOwner` | app/delivery.py:181-195 | the only check that also asks for an unexpired lease |
| `DeliveryLease.ReceiptTable.Renew` | app/delivery.py:198-222 | extends the lease for the owner of a running row, expired or not |
| `DeliveryLease.ReceiptTable.Finish` | app/delivery.py:225-252 | stores result and status for the owner of a running row, expired or not |
| `DeliveryLease.ReceiptTable.BindWorkspace` | app/delivery_package_build.py:44-72 | binds the owner's workspace once and enters the building phase |
| `DeliveryLease.ReceiptTable.AdvancePhase` | app/delivery_package_publish.py:90-104 | moves the phase only for the owner of a running row |
| `DeliveryLease.ReceiptTable.FenceAtStartup` | app/db.py:2879-2884 | a restart expires every running row and records the interruption |
| `DeliveryLease.ClaimAnswered` | app/delivery.py:100-178 | which claims are granted, refused and answered with the stored result, each if and only if; a claim that is not granted changes nothing, a granted one only its own row |
| `DeliveryLease.GrantedLease` | app/delivery.py:128-178 | a granted claim starts from scratch with a lease of four hours, and keeps of the row it replaces how far that had got and whether its builder is known to be gone |
| `DeliveryLease.WriteExact` | app/delivery.py:198-252 | a write succeeds if and only if it comes from the owner of the running row, and touches of that row what the write is about |
| `DeliveryLease.SuccessIsStored` | app/delivery.py:124-127 | a recorded success answers every later claim for the same request, over any run |
| `DeliveryLease.LeaseComesBack` | app/delivery.py:128-157 | after a failure or a restart the same request is granted the lease; after a renewal exactly when four hours have passed |
| `DeliveryLease.RestartExact` | app/db.py:2879-2884 | a restart changes running rows only, and of these the lease and the mark |
| `DeliveryLease.OldOwnersNeverWrite` | app/delivery.py:100-252 | once a claim is granted, no write by an owner issued before succeeds, at any later point of any run |
| `DeliveryLease.BindingIsPermanent` | app/delivery.py:118-123 | a package id stays bound to the episode and request that first claimed it |
| `DeliveryLease.SucceededIsAbsorbing` | app/delivery.py:124-127 | after success the row never changes; the same request gets the one stored result, any other is refused |
| `DeliveryLease.LeaseIsExclusive` | app/delivery.py:128-157 | until the owner writes, the process restarts or the clock reaches the expiry, nobody changes the row |
| `DeliveryLease.InterruptionExact` | app/db.py:2879-2884 | the interruption mark is set by a restart that finds the row running, cleared by a granted claim, and changed by nothing else |
| `DeliveryLease.InterruptionLastsUntilClaimed` | app/delivery.py:128-157 | a mark lasts over every run in which no claim on the package is granted, however many are refused |
| `DeliveryPromotion.DeliveryRoot.BeginBuild` | app/delivery.py:890-898 | an owner starts building where there is no package row, and over a row returns the package or stops, as `DeliveryPromotion.ReplayExact` says |
| `DeliveryPromotion.ReplayExact` | app/delivery_package_replay.py:63-125 | the start of a build goes on if and only if there is no row; over a row it ends well if and only if the directory is the published one and the archive is its own or may be rewritten; a wrong archive is rewritten if and only if, besides, the draft awaits review; nothing else changes |
| `DeliveryPromotion.PublishedIsFound` | app/delivery.py:890-898 | over every run without harmful stale steps, an owner that begins after publication under an unexpired lease finds the package, nothing of it changes, and its report makes the receipt succeed |
| `DeliveryPromotion.RepeatedRequestSucceeds` | app/delivery.py:890-898 | so a request repeated after a crash between publication and report succeeds |
| `DeliveryPromotion.DeliveryRoot.ResolveWorkspace` | app/delivery_package_build.py:33-72 | binds the workspace and reads the purge evidence from the receipt |
| `DeliveryPromotion.DeliveryRoot.PurgeRemnants` | app/delivery_package_build.py:75-101 | with evidence, removes the final directory, the archive and the abandoned workspace, in that order |
| `DeliveryPromotion.DeliveryRoot.BuildWorkspace` | app/delivery.py:940-986 | fills the workspace, renews the lease, stops if the authority has drifted meanwhile, and writes the archive candidate |
| `DeliveryPromotion.DeliveryRoot.CheckFinalPaths` | app/delivery.py:995-996 | stops the build when either final path is taken |
| `DeliveryPromotion.DeliveryRoot.PromoteDirectory` | app/delivery.py:997 | the directory rename succeeds only onto a free path |
| `DeliveryPromotion.DeliveryRoot.PromoteArchive` | app/delivery.py:1006-1007 | the archive rename replaces whatever is there |
| `DeliveryPromotion.DeliveryRoot.PromoteBoth` | app/delivery.py:997-1014 | both renames with the phase advances between them |
| `DeliveryPromotion.DeliveryRoot.PublishRow` | app/delivery_package_publish.py:255-285 | the package row appears only for the owner of an unexpired lease, if the authority has not drifted |
| `DeliveryPromotion.PublicationExact` | app/delivery_package_publish.py:255-285 | a package row appears if and only if the owner of an unexpired lease publishes over an authority that has not drifted, and is its own; any other attempt stops its build |
| `DeliveryPromotion.DeliveryRoot.Promote` | app/delivery.py:995-1050 | undisturbed from the last check on, a build publishes its own directory and archive |
| `DeliveryPromotion.PurgesAreLicensed` | app/delivery_package_build.py:85-91 | over every run, whoever removes remnants - the final directory, the archive, the abandoned workspace - claimed over a row that a restart or recorded failure left at ready or later and whose own builder is gone; nothing else removes anything, and lease expiry alone never licenses a removal |
| `DeliveryPromotion.ArchiveOverwrittenExact` | app/delivery.py:995-1007 | over every run, when the current owner comes to rename its archive the path is taken exactly when after its own check another builder renamed an archive there that nobody purged |
| `DeliveryPromotion.PublishedArchiveCanBeOverwritten` | app/delivery.py:1006-1007 | a run exists in which a builder stalled between its renames replaces the archive of a package published meanwhile |
| `DeliveryPromotion.PublishedStaysIntact` | app/delivery.py:988-1050 | under crashes, restarts, takeovers and interleaving without harmful stale steps, a published row always has its own directory and archive in place |
| `DeliveryPromotion.StaleStepExact` | app/delivery.py:997-1007 | a file-system step by a builder that lost the receipt keeps everything whole if and only if nobody counts on the path it changes |
| `DeliveryPromotion.HarmReachesPublication` | app/delivery.py:997-1050 | after a harmful stale step some run ends in a published package whose files are not its own |
| `DeliveryPromotion.OwnerRunsOn` | app/delivery.py:998-1050 | past its directory rename the current owner can run on to publication whatever became of the directory |
| `DeliveryPromotion.PublishedPackageCanBePurged` | app/delivery.py:932-939 | a run exists in which a builder stalled before its purge removes the directory of a package published meanwhile |
| `DeliveryPromotion.UndisturbedBuildPublishes` | app/delivery.py:922-1050 | left alone, an owner cleared to build on free final paths publishes within its lease |
| `DeliveryPromotion.TakeoverFindsPathsFree` | app/delivery.py:936-996 | an owner taking over with evidence, no other builder left and the remnants accounted for, finds both paths free at its own check |
| `DeliveryPromotion.CheckExact` | app/delivery.py:936-996 | with no other builder left, the check of an owner that took over goes well exactly when what lay at the final paths was recoverable, however its steps went before |
| `DeliveryPromotion.TakeoverExact` | app/delivery.py:936-996 | such an owner can get past its check at all exactly when the replaced row carries evidence past ready or the paths were free |
| `DeliveryPromotion.OneInterruptionIsRecovered` | app/delivery.py:936-996 | wherever the first owner's build was at the restart, the next owner finds the final paths free when it promotes |
| `DeliveryPromotion.TwoInterruptionsLeaveRemnants` | app/delivery.py:137-142 | a second interruption before the purge overwrites the evidence, and the third owner stops at the first one's directory |
| `DeliveryPromotion.StopAtCheckIsRecovered` | app/delivery.py:995-996 | once such a stop is recorded as a failure, the next owner finds the paths free |
| `DeliveryApproval.DeliveryStore.Publish` | app/delivery_package_publish.py:194-285 | publishing asserts the lease, inserts a waiting package and artifact and moves the episode pointer, or changes nothing |
| `DeliveryApproval.DeliveryStore.RecoverOrphan` | app/delivery_package_replay.py:324-377 | recovery asserts the lease, inserts the package of an existing candidate artifact and moves the pointer, or changes nothing |
| `DeliveryApproval.DeliveryStore.ApproveDraft` | app/delivery.py:1266-1389 | approval promotes package and artifact, supersedes the episode's other approved packages and records one decision, or rolls back |
| `DeliveryApproval.DeliveryStore.RejectDraft` | app/delivery.py:1137-1179 | rejection turns package, artifact and episode together and records one decision, or rolls back |
| `DeliveryApproval.DeliveryStore.Review` | app/delivery.py:1129-1210 | the decision and its receipt are completed together, or the receipt is marked failed |
| `DeliveryApproval.DeliveryStore.Invalidate` | app/artifacts.py:533-574 | retires the episode's drafts and approved packages, their artifacts and the pointer, as `DeliveryApproval.InvalidationRetires` says |
| `DeliveryApproval.InvalidationRetires` | app/artifacts.py:533-574 | every open package of the episode and its artifact are superseded, the episode points nowhere and is not ready, and nothing else changes |
| `DeliveryApproval.RetiredForGood` | app/artifacts.py:533-574 | over every later run no retired package is decided, and the episode is not shown as approved until a package that came afterwards has been approved |
| `DeliveryApproval.ArtifactOfInjective` | app/delivery.py:255-260 | different package ids have different artifact ids |
| `DeliveryApproval.ReviewIsConsistent` | app/delivery.py:1105-1401 | over every run no artifact is decided twice, an episode has at most one approved package, the artifact of a decided package says the same as the package, and an episode points nowhere or at one of its own packages and shows what became of it |
| `DeliveryApproval.DraftsAppearUnderTheLease` | app/delivery_package_publish.py:255-279 | a package appears only by publication or recovery over an authority that has not drifted, under the lease if there is one, with the content published, and is the current draft exactly when its artifact is a validated candidate |
| `DeliveryApproval.OnlyTheCurrentDraftIsDecided` | app/delivery.py:1130-1155 | a decision is recorded only for the draft its episode points at, under an unexpired lease and, to approve, over an authority that has not drifted; it completes its receipt in the same step |
| `DeliveryApproval.DecisionSettles` | app/delivery.py:1137-1389 | a decision gives its package the status decided, the episode shows it, and no package or artifact comes or goes |
| `DeliveryApproval.DecisionReplaces` | app/delivery.py:1322-1389 | an approval supersedes what the episode had approved before, and no decision changes any other package or its artifact |
| `DeliveryApproval.PublishedDraftIsDecided` | app/delivery.py:1105-1210 | a draft that is published, claimed for review and reviewed in time is decided as asked, with its content, and its receipt succeeds |
| `DeliveryApproval.OrphanIsRecovered` | app/delivery_package_replay.py:324-377 | the artifact that an older process left behind becomes the current draft exactly when it is a validated candidate of that episode and package; otherwise nothing changes |
| `DeliveryApproval.FailedReviewLetsGo` | app/delivery.py:1181-1210 | a review that records no decision changes nothing but its receipt, which fails, and the same request is then granted the lease |
| `DeliveryApproval.RestartLetsGo` | app/db.py:2879-2884 | a restart expires every running lease, of builds and of reviews, and touches nothing else |
| `DeliveryApproval.LeasedBuildPublishes` | app/delivery_package_publish.py:194-285 | a build that claimed its lease publishes its draft under it, but not after a restart in between |
| `DeliveryApproval.DecidedIsForever` | app/delivery.py:1105-1401 | a decided package never again becomes a reviewable draft |
| `DeliveryApproval.NoLaterDecision` | app/delivery.py:1105-1401 | once a package is decided or superseded no decision on its artifact is recorded any more, over every run |
| `DeliveryApproval.DecisionIsReplayed` | app/delivery.py:1119-1127 | after a decision the same request gets it back for ever and a different one is turned away |
| `ConcurrencyGate.PriorityGate.constructor` | app/generation_concurrency.py:36-40 | a new gate has no holder and no waiter |
| `ConcurrencyGate.PriorityGate.HeapPop` | app/generation_concurrency.py:64-64 | removes an entry that precedes every entry left |
| `ConcurrencyGate.PriorityGate.Acquire` | app/generation_concurrency.py:42-49 | enters at once exactly when a slot is free and nobody is queued, else queues with the priority asked for |
| `ConcurrencyGate.PriorityGate.Abandon` | app/generation_concurrency.py:50-57 | a cancelled wait gives its slot back if it had been granted, else is marked cancelled |
| `ConcurrencyGate.PriorityGate.Release` | app/generation_concurrency.py:59-69 | shrinks above the limit, else hands the slot on or frees it |
| `ConcurrencyGate.PriorityGate.Resize` | app/generation_concurrency.py:71-82 | a raised limit wakes waiters while slots are free |
| `ConcurrencyGate.HandOffSpec` | app/generation_concurrency.py:63-69 | a hand-off wakes the least live waiter and leaves the count alone, or, all cancelled, empties the queue and frees the slot |
| `ConcurrencyGate.GateIsExact` | app/generation_concurrency.py:35-82 | over every interleaving the count equals callers inside plus callers woken and not resumed, and while any entry is queued no slot is free |
| `ConcurrencyGate.GrantsInOrder` | app/generation_concurrency.py:42-82 | every grant goes to the live waiter least in (priority, arrival number), and nobody who enters at once overtakes a waiter |
| `ConcurrencyGate.GrantsInAskedOrder` | app/generation_concurrency.py:42-82 | over every run, in terms of the acquire calls: when an event wakes one caller and leaves another waiting, the first asked for a smaller priority number, or for the same one and earlier |
| `ConcurrencyGate.AskedAndInside` | app/generation_concurrency.py:42-49 | a caller that asks is inside at once if a slot is free and nobody waits, and waits otherwise |
| `ConcurrencyGate.NobodyIsStuck` | app/generation_concurrency.py:42-69 | in every state each caller can go on: inside it can release, woken it can go in, waiting it can give up, and leave |
| `ConcurrencyGate.GaveUpStaysOut` | app/generation_concurrency.py:50-69 | over every run a caller whose wait was cancelled never gets a slot |
| `ConcurrencyGate.LimitIsLastAsked` | app/generation_concurrency.py:71-76 | over every run the limit is the one asked for last, and at least one |
| `ConcurrencyGate.LimitCanBeSet` | app/generation_concurrency.py:71-82 | a new limit can be set in every state, and no call begins or ends by it |
| `ConcurrencyGate.ActiveRisesOnlyBelowLimit` | app/generation_concurrency.py:42-82 | the count never rises while at or above the limit in force, and a rise stays within it |
| `ConcurrencyGate.RefillLeastFirst` | app/generation_concurrency.py:77-82 | however many waiters a resize wakes, each precedes every live waiter left |
| `ConcurrencyGate.RunInv` | app/generation_concurrency.py:35-82 | what every event keeps, kept by every run |
| `ProviderSlots.StepInv` | app/generation_concurrency.py:366-413 | every task event keeps the tie between slot calls in progress and gate callers |
| `ProviderSlots.EventLoop.RunWithProviderCallSlot` | app/generation_concurrency.py:341-413 | whatever branch a call takes (abort before the operation, error, callback raising, report raising, watermark or wait raising, nested), the task ends as it began and a gate call that was made is finished; the result is the one the branches give |
| `ProviderSlots.OuterOutcomeExact` | app/generation_concurrency.py:390-413 | what the caller of an outer call gets: its result, the abort, the operation's own error, or that of a callback, each if and only if; an ordinary exception from on_failure hides nothing |
| `ProviderSlots.EventLoop.RunNested` | app/generation_concurrency.py:366-383 | a nested call makes no gate call, and an aborted one does nothing at all |
| `ProviderSlots.NestedOutcomeExact` | app/generation_concurrency.py:366-383 | a nested call aborts if and only if its own predicate or that of the lease says so, and never calls on_failure |
| `ProviderSlots.EventLoop.RunLeased` | app/generation_concurrency.py:390-413 | from the context variable being set to the finally: every way out releases the slot once and resets the variable |
| `ProviderSlots.EventLoop.WaitForSlot` | app/generation_concurrency.py:387-389 | the acquire either leases the slot or raises with nothing held |
| `ProviderSlots.SlotsMatchTasks` | app/generation_concurrency.py:341-413 | however calls nest and end, the gate's count is the tasks inside an outer call plus the acquires woken and not resumed |
| `ProviderSlots.SlotRunsAreGateRuns` | app/generation_concurrency.py:341-413 | every run of slot calls is a run of the gate, so the gate's laws hold here |
| `ProviderSlots.NoTaskIsStuck` | app/generation_concurrency.py:341-413 | a task that waits can give up, and go in once woken; one inside a call can leave it; any other can call, and asks the gate only if it leases no slot |
| `ProviderSlots.NestedCallsAreFree` | app/generation_concurrency.py:366-383 | a nested call by the same task takes and releases nothing |
| `ProviderSlots.SpawnedTaskTakesItsOwnSlot` | app/generation_concurrency.py:364-370 | a task spawned inside sees the lease but takes a slot of its own |
| `SlotReconciliation.SlotTables.ClearFlags` | app/db.py:2129-2132 | every video job and every version loses its slot flag |
| `SlotReconciliation.SlotTables.MarkOwner` | app/db.py:2144-2155 | the owner and its version get the slot |
| `SlotReconciliation.SlotTables.ReconcileRow` | app/db.py:2156-2313 | one row's turn: job, reservation, version status, version flag and claim each end as its case demands |
| `SlotReconciliation.SlotTables.PickOwner` | app/db.py:2140-2143 | the owner is the first locally active row in the query's order |
| `SlotReconciliation.SlotTables.ReconcileShot` | app/db.py:2139-2313 | after a shot's turn exactly its rows have been dealt with |
| `SlotReconciliation.SlotTables.Reconcile` | app/db.py:2035-2314 | the whole pass turns jobs, reservations, versions and claims into what the tables before determine, whichever rows share a version or an operation |
| `SlotReconciliation.FirstIsOwner` | app/db.py:2140-2143 | picking the first locally active row is picking the one that precedes all others |
| `SlotReconciliation.RowOrderExact` | app/db.py:2116-2127 | the order of a shot's rows: a job that has the slot first; else one whose task the provider accepted, one that may be adopted and was not given up, one under a lease; else the one written last |
| `SlotReconciliation.OwnerIsBest` | app/db.py:2116-2143 | a contended slot stays with a job that has it, or else goes to one whose task the provider accepted, one that may be adopted, one under a lease; else to the one written last |
| `SlotReconciliation.PassOnVersion` | app/db.py:2148-2279 | a version's status is that of the last polled or closed row to write it, and its flag is set exactly when an owner marks it and no such row of its shot or a later one names it |
| `SlotReconciliation.OneActiveJobPerShot` | app/db.py:1855-1857 | afterwards a shot has at most one active video job, and it was locally active before |
| `SlotReconciliation.AContendedSlotIsHeld` | app/db.py:2140-2155 | a shot with a locally active job has a holder, the first in the query's order |
| `SlotReconciliation.OthersArePolledOrClosed` | app/db.py:2175-2296 | every other selected job keeps polling with its budget reserved, or is cancelled with its budget released |
| `SlotReconciliation.LiabilitiesSurvive` | app/db.py:2162-2247 | a job the provider accepted stays accepted, its reservation is never newly released and its claim stays on the ledger |
| `SlotReconciliation.ClaimReleasedExact` | app/db.py:2250-2313 | a claim changes if and only if it was reserved and unaccepted and its own job gives way, names that operation, is cancellable, has no task and was not submitted or was still submitting; it is then released |
| `SlotReconciliation.CreateStateExact` | app/db.py:2250-2258 | under the same condition on a job its create state is reset; every other job keeps its create state, and every job its non-cancellable mark |
| `SlotReconciliation.RowOutcome` | app/db.py:2129-2296 | what becomes of each job, in terms of facts about it before the pass |
| `SlotReconciliation.ReservationOutcome` | app/db.py:2175-2296 | a reservation is made anew only for a job that waits for its bill and released only for a cancelled one, if it was not settled |
| `SlotReconciliation.LedgerOutcome` | app/db.py:2186-2247 | the ledger gains exactly the operations of accepted jobs that it lacked, as accepted, and loses none |
| `SlotReconciliation.UnselectedRowsKeepEverythingElse` | app/db.py:2129-2132 | jobs outside the query lose their slot flag and nothing else |
| `SlotReconciliation.SecondPassChangesNoJob` | app/db.py:2035-2314 | a second pass picks the same owners and changes no job but for its time stamp, no reservation and no claim |
| `SlotReconciliation.SecondPassExact` | app/db.py:2035-2314 | it changes no version row exactly when no closed row hid what an owner or a polled row did to a version |
| `SlotReconciliation.ClosedApartSettles` | app/db.py:2270-2276 | it suffices that no closed row names a version that an owner or a polled row names |
| `SlotReconciliation.HiddenInOneShot` | app/db.py:2270-2276 | for a version that only jobs of one shot name, hidden means that a closed row comes after all polled ones or, without polled rows, shares it with the owner |
| `SlotReconciliation.SharedVersionComesBack` | app/db.py:2270-2276 | two queued jobs of one shot share a version: the first pass takes its flag, the second gives it back |
| `SlotReconciliation.ActiveVersionsExact` | app/db.py:1858-1860 | at most one version per shot is active exactly when no two owners with the last word on their versions' flags name different versions of one shot |
| `SlotReconciliation.InPlaceMeansApart` | app/db.py:2151-2155 | versions that belong to their job's shot meet the condition |
| `SlotReconciliation.MisplacedVersionsBothActive` | app/db.py:2151-2155 | two shots whose jobs name versions of a third leave two active versions in it |
| `IntegrityRepair.Database.DeleteVersions` | app/db.py:1924-1925 | deleting versions takes the jobs that name them when the triggers exist |
| `IntegrityRepair.Database.DeleteShots` | app/db.py:1918-1923 | deleting shots takes versions, scenes and jobs below when the triggers exist |
| `IntegrityRepair.Database.DeleteEpisodes` | app/db.py:1913-1917 | deleting episodes takes shots and jobs below when the triggers exist |
| `IntegrityRepair.TriggersTakeExactly` | app/db.py:1913-1925 | with the triggers, deleting episodes takes the shots under them, what hangs on those and the jobs that name any of it; without them the episodes alone |
| `IntegrityRepair.Database.DeleteOrphans` | app/db.py:2326-2337 | the first clean-up, statement by statement |
| `IntegrityRepair.Database.DeleteDuplicates` | app/db.py:2339-2347 | of each duplicate group the lowest row id stays |
| `IntegrityRepair.Database.DeleteNewOrphans` | app/db.py:2358-2365 | the second clean-up |
| `IntegrityRepair.Database.Repair` | app/db.py:2325-2365 | the whole script |
| `IntegrityRepair.SoundIsClean` | app/db.py:1944-2014 | the rows that ought to survive pass every orphan and duplicate check |
| `IntegrityRepair.DedupedUnder` | app/db.py:2339-2347 | a duplicate group shares its parent, so orphan removal takes or leaves it whole and deduplication keeps its lowest row id |
| `IntegrityRepair.CascadingRepairIsSound` | app/db.py:2325-2365 | with the cascade triggers one run leaves exactly the rows whose parents survive and whose row id is lowest in their group |
| `IntegrityRepair.RepairWithoutTriggers` | app/db.py:2325-2365 | without triggers one run leaves the same, save that versions and scenes are measured against the shots before the last deletion of shots |
| `IntegrityRepair.OneRunWithoutTriggersExact` | app/db.py:2356-2365 | without triggers no orphan is left exactly when no shot with children hangs on an episode that goes in the run |
| `IntegrityRepair.TwoRunsSuffice` | app/db.py:2325-2365 | without triggers a second run always ends with exactly the rows that ought to survive |
| `IntegrityRepair.ThirdLevelOrphanSurvives` | app/db.py:2356-2365 | an orphan episode with a shot and a version leaves the version behind |
| `IntegrityRepair.ShotSurvivesExactly` | app/db.py:2325-2365 | a shot survives unchanged exactly when it is lowest in its group and its episode survives |
| `IntegrityRepair.EpisodeSurvivesExactly` | app/db.py:2325-2365 | an episode survives unchanged exactly when it is lowest in its group and its project exists |
| `IntegrityRepair.ScenesAreTailed` | app/db.py:2326-2365 | a scene comes out as it was, but with the kind "tail" if it had none |
| `MediaCleanup.Outbox.constructor` | app/artifacts.py:924-951 | a staged row is pending, with its token issued |
| `MediaCleanup.Outbox.Begin` | app/artifacts.py:1103-1157 | which calls may go on to the claim, and which are rejected or answered from the row |
| `MediaCleanup.Outbox.Reject` | app/artifacts.py:1126-1155 | an unusable payload makes a pending row manual |
| `MediaCleanup.Outbox.Claim` | app/artifacts.py:1159-1168 | the claim succeeds exactly on a pending row |
| `MediaCleanup.Outbox.Check` | app/artifacts.py:674-745 | whether the object at the path is the staged generation or something else or gone; an object that differs is left where it is |
| `MediaCleanup.Outbox.MoveAside` | app/artifacts.py:747-764 | whatever is at the path now moves into the quarantine |
| `MediaCleanup.Outbox.Verify` | app/artifacts.py:766-772 | only an object with the staged generation apart from its ctime goes on to deletion |
| `MediaCleanup.Outbox.Delete` | app/artifacts.py:775-780 | deletion from the quarantine, with each way it can fail |
| `MediaCleanup.Outbox.Finish` | app/artifacts.py:1193-1200 | completes an executing row and returns True in any case |
| `MediaCleanup.Outbox.Fail` | app/artifacts.py:1201-1225 | an executing row becomes manual and records the quarantines, in full if the record fits 800 characters |
| `MediaCleanup.Outbox.Sweep` | app/artifacts.py:1228-1254 | a pending or executing row becomes manual |
| `MediaCleanup.StatusMovesForward` | app/artifacts.py:1098-1254 | a row's status only moves forward |
| `MediaCleanup.TerminalRowsAbsorb` | app/artifacts.py:1112-1117 | completed and manual rows never change again |
| `MediaCleanup.DestroysOnlyWhatWasStaged` | app/artifacts.py:723-780 | whatever anyone does to the paths, at most one flush passes the claim and each object destroyed has the generation staged for its entry apart from the ctime |
| `MediaCleanup.NothingElseIsLost` | app/artifacts.py:766-772 | an object taken by mistake stays whole in its quarantine, and a failed row whose record was not cut names every quarantine that still holds something |
| `MediaCleanup.TrueMeansEveryEntryHandled` | app/artifacts.py:1171-1200 | a flush that returns True dealt with every entry; its row is completed unless a sweep retired it |
| `MediaCleanup.StagedObjectsAreRemoved` | app/artifacts.py:1159-1200 | a flush with the row's token that finds every object as it was staged, and that nobody disturbs, removes them all, completes the row and returns True |
| `MediaCleanup.ChangedPathIsLeftAlone` | app/artifacts.py:674-745 | a look that sees anything but what was staged moves nothing, and over every later run nothing more is taken from any path or destroyed |
| `MediaCleanup.ReplacedAfterTheLook` | app/artifacts.py:747-772 | what was put at the path between look and move is moved aside, found to be something else and kept whole |
| `MediaCleanup.CompletedMeansEveryEntryHandled` | app/artifacts.py:1171-1200 | a completed row had one execution, which dealt with every entry |
| `MediaCleanup.UnfencedNeverClaims` | app/artifacts.py:1119-1157 | a payload that is unreadable, has an entry of the old form (a bare path) or no token never leads to a claim |
| `MediaCleanup.TokenExact` | app/artifacts.py:1119-1157 | over every run a call goes on to the claim if and only if the row is pending, its entries are readable and of the new form, and it brings the row's token or comes from the process that staged the row |
| `MediaCleanup.EntryWithoutGenerationStops` | app/artifacts.py:1146-1215 | a row with an entry that merely lacks its generation can be claimed, but nothing is destroyed for that entry or for one behind it, no flush returns True and the row is never completed |
| `MediaCleanup.TrueCompletesExactly` | app/artifacts.py:1159-1200 | a flush that claims and comes to its end returns True, and the row is completed for good exactly when no sweep came in between |
| `MediaCleanup.TrueAfterASweep` | app/artifacts.py:1193-1200 | a flush overtaken by a sweep returns True with the row manual |
| `OverlapSpans.WindowIndex` | app/continuity.py:1363-1365 | the index gives for every window exactly the places it starts in the source |
| `OverlapSpans.Extend` | app/continuity.py:1377-1385 | the inner loop finds how far text and source agree |
| `OverlapSpans.BestEnd` | app/continuity.py:1375-1386 | over the starts of a window the best end is that of the longest repeat anywhere |
| `OverlapSpans.FindSpans` | app/continuity.py:1345-1389 | the indexed scan returns what the naive search returns |
| `OverlapSpans.LongestIs` | app/continuity.py:1375-1386 | a piece at a place occurs in the source exactly up to the longest repeat there |
| `OverlapSpans.SpansAreMaximal` | app/continuity.py:1375-1388 | a span's text occurs in the source and no longer piece from its start does |
| `OverlapSpans.EveryHitIsCovered` | app/continuity.py:1370-1388 | every place where a window of the source starts lies in a span |
| `OverlapSpans.FinderIsExact` | app/continuity.py:1345-1389 | spans are in order, apart, long enough, occur in the source, cannot be extended and cover every hit |
| `OverlapSpans.NoSpansMeansNoRepeat` | app/continuity.py:1345-1389 | there are no spans exactly when no window of the source is in the text |
| `ExcerptSplice.Splice` | app/compiler.py:258-259 | replacing the spans from right to left substitutes them all at once |
| `VerbatimLines.Protect` | app/compiler.py:247-254 | each allowed line that is in the body gives way to a fresh placeholder, written in characters |
| `VerbatimLines.Restore` | app/compiler.py:261-262 | the placeholders are turned back one by one |
| `ExcerptSplice.EnsureSourceExcerpt` | app/compiler.py:244-262 | the transformation of a prompt between the removal of marker lines and the final tidying, on characters throughout |
| `PlaceholderTexts.ReplaceLine` | app/compiler.py:253-253 | replacing a line by its placeholder in characters is replacing it where placeholders are single symbols, unless the line is part of a placeholder there |
| `PlaceholderTexts.ReplaceToken` | app/compiler.py:262-262 | where no text reads like a placeholder, str.replace finds exactly its occurrences |
| `VerbatimLines.LosslessExact` | app/compiler.py:247-262 | protecting and turning back gives back every text that does not read "MANJU_ALLOWED_VERBATIM_" and a digit - underscores or not - exactly when no line is part of an earlier line's placeholder |
| `PlaceholderTexts.UnnamedIsTokenFree` | app/compiler.py:250-250 | every text that does not contain "MANJU_ALLOWED_VERBATIM_" is such a text |
| `VerbatimLines.TextIsFakeFree` | app/compiler.py:250-262 | in such a text, whichever lines stand behind placeholders, only a placeholder itself reads like one |
| `OneLine.OneLineExact` | app/compiler.py:247-262 | for any text around one line, placeholders spelled out in it included: it comes back exactly when no piece in front of the line ends with the placeholder - lengthened until it was fresh - short of its last one or two underscores |
| `OneLine.CleanOneLineExact` | app/compiler.py:244-262 | the same of what is sent, for a prompt that repeats nothing of the source outside the line |
| `OneLine.TextTakesPlaceholder` | app/compiler.py:250-262 | a text that ends in the placeholder without its last two underscores, and then the line: the line and the rest of a placeholder are sent |
| `VerbatimLines.LineIsLost` | app/compiler.py:247-262 | where a later line is part of a line's placeholder, that placeholder itself is left in the text |
| `ExcerptSplice.SubstitutedIsScanned` | app/compiler.py:256-259 | replacing the finder's spans is scanning the text and replacing each longest repeat on the way |
| `ExcerptSplice.ScanRendered` | app/compiler.py:256-259 | where no window that the source holds reaches into a placeholder, the scan in characters is the scan with placeholders as single symbols, so no span does |
| `ExcerptSplice.ScanKeepsMarks` | app/compiler.py:256-259 | the placeholders come through the splice, in their order |
| `ExcerptSplice.ScanSpells` | app/compiler.py:256-259 | what the scan leaves, with the placeholders spelled out, does not read like a placeholder if the text did not |
| `ExcerptSplice.SentOnSymbols` | app/compiler.py:244-262 | if no line clashes, the text does not read like a placeholder and no window that the source holds reaches into one, what is sent is what a placeholder of one symbol would give: every placeholder comes through and is spelled out |
| `ExcerptSplice.ProtectedLinesReappear` | app/compiler.py:247-262 | then every line found at its turn reappears verbatim in what is sent |
| `ExcerptSplice.CleanPromptsUnchangedExact` | app/compiler.py:244-262 | all prompts that repeat nothing outside the allowed lines and do not read "MANJU_ALLOWED_VERBATIM_" and a digit are sent as they are exactly when no line is part of an earlier line's placeholder |
| `ExcerptSplice.SentIsCleanFragments` | app/compiler.py:256-262 | for every input, what is sent is clean fragments joined by the stock phrase, with the placeholders turned back |
| `ExcerptSplice.LetterInPlaceholder` | app/compiler.py:250-262 | a one-letter line inside the placeholder of a longer line: the placeholder is sent instead of the line |
| `ExcerptSplice.SourceTakesPlaceholder` | app/compiler.py:256-262 | an instance: a source with an underscore behind a long repeat takes a placeholder's head with it, and the line is lost |
| `HarmlessSources.HarmlessExact` | app/compiler.py:247-262 | over all texts without underscores and all lists of n lines that do not clash, longest first, every prompt that repeats nothing of the source once the lines are protected is sent as it is exactly when no window of the source reads like a stretch that reaches into a placeholder |
| `HarmlessSources.HarmlessIsSmooth` | app/compiler.py:250-259 | the windows that condition names are exactly those of protected bodies that reach into a placeholder |
| `HarmlessSources.SnagHarms` | app/compiler.py:247-262 | from each such window of the source, a prompt and lines that the code changes |
| `HarmlessSources.HarmlessSourceKeepsLines` | app/compiler.py:247-262 | with such a source every protected line reappears, whatever the text without underscores repeats of it |
| `HarmlessSources.BareSourceIsHarmless` | app/compiler.py:256-259 | a source without underscores is such a source |
| `ExcerptSplice.FragmentsAreClean` | app/compiler.py:256-259 | no stretch kept between the spans holds a window of the source |
| `ContinuityInheritance.MergeTexts` | app/continuity.py:409-417 | the loop over the string fields merges exactly the fields the overlay puts in |
| `ContinuityInheritance.MergeEntity` | app/continuity.py:409-425 | merging a partial entity never erases an inherited value with a default |
| `ContinuityInheritance.MergeAll` | app/continuity.py:431-440 | entities on either side are kept, those on both are merged |
| `ContinuityInheritance.MergeState` | app/continuity.py:428-441 | scene, characters and props are merged each |
| `ContinuityInheritance.Storyboard.Inherit` | app/continuity.py:462-481 | a shot's states are filled from the shot before it |
| `ContinuityInheritance.Storyboard.Normalize` | app/continuity.py:551-555 | the left-to-right pass over the board |
| `ContinuityInheritance.FactsPersist` | app/continuity.py:409-481 | a fact stays as it is until a later shot declares it anew or a scene change drops it |
| `ContinuityInheritance.CarriedDrops` | app/continuity.py:444-459 | a scene change drops scene facts and the four composition fields of characters |
| `ContinuityInheritance.CarriedKeeps` | app/continuity.py:444-459 | and nothing else |
| `ContinuityInheritance.FlagsPersist` | app/continuity.py:409-481 | a plain field at the end of a shot stays, over scene changes and defaults, until a shot sets it on purpose |
| `ContinuityInheritance.FlagsAreSet` | app/continuity.py:409-481 | what a shot sets on purpose for its end holds there |
| `ContinuityInheritance.NoPropIsMissing` | app/continuity.py:1147-1158 | after the pass the missing-prop issue never fires |
| `ContinuityInheritance.IssuesAreDeclared` | app/continuity.py:1082-1170 | every other issue traces to a value the current shot itself declared |
| `ContinuityInheritance.IssuesExact` | app/continuity.py:1082-1170 | at every boundary a compared fact, field or landmark, raises an issue exactly when the shot gives another value for it; where a scene change dropped the fact, one not set on purpose counts too |
| `ContinuityInheritance.ComparedExact` | app/continuity.py:1082-1170 | which facts a boundary is checked for, within a scene, over a reverse angle and over a scene change |
| `ContinuityInheritance.MissingPropExact` | app/continuity.py:1147-1158 | before the pass a prop is reported missing if and only if it is required, by its field or by its visibility, and the next shot does not have it |
| `ContinuityInheritance.MergeSelfExact` | app/continuity.py:409-425 | merging an entity into itself changes nothing exactly when what was set on purpose is trimmed |
| `ContinuityInheritance.NormalizedTwice` | app/continuity.py:462-481 | inheriting again changes nothing once what was set on purpose is trimmed |
| `ContinuityInheritance.TrimmedBoardsSettle` | app/continuity.py:462-481 | one pass settles a board whose strings are trimmed for good |
| `PythonText.StripStrips` | app/continuity.py:415-417 | stripping leaves nothing exactly of a blank text, and leaves trimmed text |
| `PythonText.StripCuts` | app/continuity.py:415-417 | stripping takes white space from both ends and nothing else |
| `PythonText.StateValueBlank` | app/continuity.py:1078-1079 | the comparison form of a value is empty exactly when the value is blank |
| `PythonText.ComparedByWords` | app/continuity.py:1078-1079 | two values have the same comparison form exactly when they have the same words |
| `ActionReplay.Compute` | app/continuity.py:607-771 | the profile of a shot: count, seconds and errors |
| `ActionReplay.LookUp` | app/continuity.py:705-739 | what the replay needs of a task's action |
| `ActionReplay.CheckPhases` | app/continuity.py:687-702 | one error for each assigned phase that does not exist or belongs to another action |
| `ActionReplay.TakeTask` | app/continuity.py:704-757 | one action's turn in the replay |
| `ActionReplay.FactHoldsExact` | app/continuity.py:704-757 | a fact holds after some actions if and only if one of them added it, or it held before, and no completed action since took it away |
| `ActionReplay.NoErrorExact` | app/continuity.py:663-771 | no error is reported exactly when started actions find their preconditions, the replay ends in the declared facts, phases and references are in order and the budget covers the minima |
| `ActionReplay.NoActionsExact` | app/continuity.py:669-677 | a shot without actions is held only to having no phases |
| `ActionReplay.ListsAreFubini` | app/continuity.py:731-736 | charging action by action is charging phase by phase |
| `ActionReplay.ChargesExact` | app/continuity.py:704-736 | without an error each assigned phase is charged as often as the actions found for the shot's ids list it |
| `ActionReplay.EachPhaseChargedOnceExact` | app/continuity.py:714-736 | if action ids are told apart, each assigned phase is charged exactly once exactly when none is listed by two of the shot's actions |
| `ActionReplay.UniqueIdsChargeOnce` | app/continuity.py:714-736 | with unique action and phase ids each assigned phase is charged exactly once, in the count and in the seconds |
| `ActionReplay.ShadowedPhaseIsFree` | app/continuity.py:704-736 | of two actions with one id the first is shadowed: its phases are valid and charged nothing |
| `ReplyStreamer.JsonReplyStreamer.FindKey` | app/hiagent.py:2341-2344 | finds the end of the first match of the key pattern |
| `ReplyStreamer.JsonReplyStreamer.DecodePrefix` | app/hiagent.py:2338-2376 | the decoded reply of all text so far |
| `ReplyStreamer.JsonReplyStreamer.Feed` | app/hiagent.py:2378-2387 | what is passed on extends what was passed on to the decoded reply of all text so far |
| `ReplyStreamer.JsonReplyStreamer.FeedAll` | app/hiagent.py:2378-2387 | over any chunking the deltas add up to the decoded reply of the whole text |
| `ReplyStreamer.NoEarlierMatch` | app/hiagent.py:2341-2344 | a cut-off match cannot be completed over a later match |
| `ReplyStreamer.PrefixGrows` | app/hiagent.py:2338-2376 | more text only extends the decoded reply |
| `ReplyStreamer.EscapedReplyComesBack` | app/hiagent.py:2338-2376 | a reply of code units, escaped in any way section 7 of RFC 8259 allows, is given back exactly |
| `ReplyStreamer.HexedReplyComesBack` | app/hiagent.py:2364-2373 | in particular any code units, each written as four hexadecimal digits, small or capital |
| `ReplyStreamer.StreamAnswer` | app/hiagent.py:2325-2387 | however such an answer is cut into chunks, the deltas add up to the reply |
| `ReplyStreamer.SurrogatePairStaysApart` | app/hiagent.py:2364-2373 | an escaped surrogate pair is given back as two code points |
| `ReplyStreamer.StreamedIsDecodedExact` | app/hiagent.py:2338-2376 | the streamed reply is what json.loads decodes exactly when no escaped high surrogate is directly followed by an escaped low one |
| `ChatRetry.Chats.RememberSchemaRejected` | app/hiagent.py:2068-2081 | counts a rejection and marks the pair at the threshold |
| `ChatRetry.Chats.ForgetStreak` | app/hiagent.py:2084-2093 | a delivery ends the streak |
| `ChatRetry.Chats.Chat` | app/hiagent.py:1746-1915 | at most six dispatches, each but the first with what the reasons of the answers before it call for: raised limit, lowered thinking, weaker format or the same again; the last is delivered or final, and the result is its answer; what is recorded is what was turned down or delivered on the way; a required format is always sent |
| `ChatRetry.RoundHasReason` | app/hiagent.py:1801-1910 | a round of the loop, which keeps counters, is a round by reasons, which look at the dispatches so far: it goes on if and only if there is one |
| `ChatRetry.BlankReplies` | app/hiagent.py:1820-1847 | a blank reply is never a format turned down: the first with nothing delivered is repeated, the first with nothing but reasoning is repeated with less thinking, any other is final |
| `ChatRetry.FirstFormatExact` | app/hiagent.py:1746-1800 | the first format in terms of the history: a required one as it is, any other none at all after a format was turned down for the pair, and a schema as a JSON object exactly after three rejections with no delivery between |
| `ChatRetry.RoundsRunOut` | app/hiagent.py:1801-1910 | every round that goes on uses up one of the replays left |
| `ChatRetry.MarkedExactly` | app/hiagent.py:2057-2093 | a pair is marked schema-unsupported exactly when three rejections occurred with no delivery between |
| `ChapterSplitting.MergeHeadingOnly` | app/ingest.py:272-304 | the chapters hold all text from the first heading on, in order and apart from white space, cut where headings with a body begin |
| `ChapterSplitting.BodiesAreKept` | app/ingest.py:272-304 | each heading that something other than white space follows has a chapter under its title, with all text from it to the next heading and from the headings without a body right before it |
| `ChapterSplitting.ChaptersHaveBodies` | app/ingest.py:272-304 | there are no other chapters, unless nothing follows any heading, and then there is one |
| `ChapterSplitting.SplitByLength` | app/ingest.py:313-317 | pieces of at most 3000 characters hold all text, none is empty, and there are no more than the length of the text asks for |
| `ChapterSplitting.DedupeStubs` | app/ingest.py:234-269 | the loop keeps and removes chapters pair by pair and renumbers the kept |
| `ChapterSplitting.DedupePartitions` | app/ingest.py:234-269 | kept and removed interleave to the chapters, each in order |
| `ChapterSplitting.RemovedStubsAreCovered` | app/ingest.py:250-263 | only stubs are removed, and each has a chapter of its title, three times its length, kept for it |
| `ChapterSplitting.NothingRemovedExact` | app/ingest.py:234-263 | nothing is removed exactly when of no two neighbours with one title either is little more than a title and the other a body of three times its length |
| `ChapterSplitting.OnePassIsNotEnough` | app/ingest.py:234-269 | of a stub, its chapter and another stub the last stays for a second pass |
| `ChapterSplitting.OnePassIsEnoughExact` | app/ingest.py:234-269 | a second pass removes nothing exactly when no unpaired stub stands beside a pair and is redundant beside the chapter the pair keeps |
| `HeadingRecovery.CutUp` | app/ingest.py:178-205 | the inner loop ends, each split leaving fewer lines |
| `HeadingRecovery.Recover` | app/ingest.py:166-209 | every chapter is cut up against the number of the next, and the fragments are renumbered in order |
| `HeadingRecovery.CleanKeepsLetters` | app/ingest.py:85-102 | cleaning lines loses no letter |
| `HeadingRecovery.FewFragments` | app/ingest.py:179-205 | a chapter falls into at most as many fragments as it has lines |
| `HeadingRecovery.NoFragmentIsShort` | app/ingest.py:196-205 | a chapter that is cut falls into fragments none of which is a stub |
| `HeadingRecovery.GapsOnly` | app/ingest.py:179-184 | every fragment but the last leaves a gap to the next chapter's number |
| `HeadingRecovery.FragmentsKeepLetters` | app/ingest.py:185-205 | cutting loses no letter and keeps their order |
| `Timeline.TransitionSpec` | app/final_edit.py:56-70 | whatever the text, a transition lasts between 0.08 and 0.32 seconds and its audio overlap is its length, which is all the laws below ask of transitions |
| `Timeline.TransitionsByName` | app/final_edit.py:56-70 | what each transition in the table is and how long it takes; every other text, and none, is a cut of 0.12 seconds |
| `Timeline.Compose` | app/final_edit.py:436-461 | the loop's total and reports |
| `Timeline.TotalIsClipsLessTransitions` | app/final_edit.py:436-461 | the total is the clips less the transitions |
| `Timeline.ClampedExactly` | app/final_edit.py:441-442 | an offset is clamped exactly when less than 0.04 seconds are there |
| `Timeline.FullLengthExactly` | app/final_edit.py:441 | a transition keeps its own length exactly when a third of the shorter side allows it |
| `Timeline.InStepExactly` | app/final_edit.py:441-459 | picture and sound have the same length after a step exactly when its offset was not clamped |
| `Timeline.LongClipsComposeExactly` | app/final_edit.py:436-461 | for clips of at least a second the film is the clips less the full transitions, picture and sound in step throughout |
| `Timeline.TransitionsStayApart` | app/final_edit.py:441-459 | for such clips a transition is over before the next begins |
| `Timeline.OffsetsIncrease` | app/final_edit.py:441-459 | for such clips offsets strictly increase |

## Left out

- Readiness checks, snapshot contents, manifests and quality reports of a delivery: a package's files carry the tag of the owner that built them.
- DeliveryPromotion: does not include the orphan recovery that may precede a build, which concerns artifact rows written by older processes; its transaction is in DeliveryApproval.
- DeliveryApproval: `allow_interrupted_takeover` and the API-only arguments are left out, the status `approved_with_risk` is never written by this code, and progress after a failed re-check that leaves the receipt running (app/delivery.py:1261) is not promised.
- DeliveryApproval: other writers of an episode's delivery status, outside the cited functions, are not modelled.
- Congestion control and the per-account semaphores of app/generation_concurrency.py; the machine watermark is only a wait that may raise before the acquire.
- SlotReconciliation.SlotTables.Reconcile: the SQL ordering and grouping enter as the argument `groups`, required to be the query's rows in its order; error texts and the adoption trigger are left out, and operation ids carry no surrounding blanks.
- IntegrityRepair: a DELETE and its row triggers are one set-based step; the screenplay drafts, the backup and the report are left out; row ids and primary keys are unique as SQLite makes them.
- MediaCleanup: the stale marker of the final video is only a step that may fail; a row deleted from the table, the sweep's limit and the wording of the recorded reason are left out, so whether the record fits 800 characters is a parameter.
- ExcerptSplice.EnsureSourceExcerpt: the marker lines before the protection and the final tidying are left out.
- VerbatimLines.QuietLines: lines that begin or end with an underscore, hold two of them together or read like a placeholder are left out where several lines are protected; `OneLine.OneLineExact` asks of its line only not to begin with an underscore.
- ContinuityInheritance: the other fields that the pass synchronises, and the order and wording of issues; scene and time of a shot enter as a flag.
- ActionReplay: wording of errors, and the fields of actions that the profile does not read.
- ReplyStreamer: what `int(digits, 16)` makes of anything but four hexadecimal digits is a parameter.
- ChatRetry: payloads, providers and the recognition of an unsupported format in an error text; other calls may change the record between two dispatches, which this loop reads only before the first.
- ChapterSplitting: heading patterns and the comparison of titles are parameters; preambles, undersized endings and oversized chapters are left out.
- HeadingRecovery: how a missing heading is recognised is a parameter, required only to name a line after the first and to lose none of its letters.
- Timeline: rounding to milliseconds in the filter arguments, frame grids, loudness and subtitles.
- HTTP, SSE, provider adapters, prompts, ffmpeg, zip bytes and hash functions: network plumbing and media, opaque here.
- app/db.py migrations and SQLite locking: each transaction is one atomic step.

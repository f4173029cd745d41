# Governance control plane and gateway: a verified model

This project models the parts of the repository whose correctness depends on interleaving, on
history, on arithmetic or on encodings, and proves what they keep. It is written in Dafny 4.11;
`dafny verify dfyconfig.toml` checks all of it.

How the concurrent parts are modelled. Every component that reads and writes the store across
awaits appears twice in one file. First as a state machine: a world holding the store and every
call in flight, events that are single accesses to the store (or one step outside it), and a run
that is any finite sequence of events, so calls interleave at every await, and a call that never
advances again is a crashed one. The main results are statements about every run. Then as a class
with the store's fields and a ghost record of the events so far: its methods follow the source
statement by statement, and are proved to be runs of the machine that end in the machine's answer;
where a run alone does not fix it, the contract names the commands, replies or sends the call makes.
At each await `OthersAct` lets any sequence of other calls' events happen.

What an answer means is stated apart from the machine that computes it: `PublicationOutcomes`, `TickAnswers`,
`AdmissionAnswers`, `LedgerAnswers`, `ProposalAnswers`, `LifecycleRules`, `PublicationOrders`, `GatewayChoices` and
`PublishedUsage` say of each result, in the fields of its inputs and the events of the run, when it is given and what
had happened by then.

| file | component |
|---|---|
| `Lifecycle.dfy`, `LifecycleRules.dfy` | the revision reducer; its rules one by one |
| `ConfigurationConflict.dfy` | what an overwrite would destroy |
| `ConfigurationWriter.dfy` | saving under optimistic concurrency, with acknowledged overwrite |
| `ScheduleRecovery.dfy`, `ScheduleRunner.dfy`, `TickAnswers.dfy` | what a schedule owes; claiming, running and recording it; what a tick's answer means |
| `DraftAuthoring.dfy`, `ProposalAnswers.dfy` | authoring a proposal; what its answer means |
| `GovernancePublisher.dfy`, `PublicationOutcomes.dfy` | publishing the targets; how each of them ends, and why |
| `ProposalPublication.dfy`, `PublicationOrders.dfy` | driving a publish or a resume; the commands it gives |
| `VerifiedDocuments.dfy` | when a publish touches the documents of verified targets |
| `NotificationDelivery.dfy`, `NotificationLedger.dfy`, `LedgerAnswers.dfy` | notification records, the ledger and the dispatcher |
| `DecimalThreshold.dfy`, `EffectiveModel.dfy`, `ThrottleTier.dfy`, `GatewayChoices.dfy` | the gateway's decisions over counters |
| `CounterKeys.dfy`, `PolicyAdmission.dfy`, `AdmissionAnswers.dfy` | counter keys; the policy cache and admission |
| `UsageAggregation.dfy`, `PublishedUsage.dfy`, `ModelsProjection.dfy` | usage buckets, totals, who sees what, and the models screen |
| `Json.dfy`, `CanonicalForm.dfy`, `PolicyImpactPreview.dfy` | JSON text, fingerprints, the impact preview |
| `Common.dfy`, `Numerals.dfy`, `Ordering.dfy`, `EffectivePolicy.dfy` | shared datatypes, decimal text, sorting |

Where the code departs from what its own comments promise, the model follows the code. Each
departure is a lemma:

- A forced save whose comparison shows no change lands its write and then throws, because there is
  no conflict to describe (`QuietOverwriteHappens`). The overwrite record describes the discarded
  version exactly when the acknowledged tag was issued before the conflict read
  (`OverwriteRecordsWhatItDiscarded`, `GuessedTagMisreports`).
- A live lease does not separate two ticks of the same owner (`SameOwnerOverlaps`), nor ticks of owners whose
  clocks disagree (`SkewedClocksOverlap`); in every other case it does (`OverlapUnderLiveLease`).
- A proposal nobody disturbs succeeds exactly when the next number's draft and revision are free
  (`UndisturbedProposalSucceedsExactly`). Where proposals alone create revisions, that is exactly when no draft is
  left without its revision (`OrphanIsTheOnlyObstacle`): such a draft blocks every later proposal, however stored
  revisions are approved, published or saved meanwhile (`OrphanBlocksEveryProposal`), until a revision with its
  number or a higher one is created elsewhere (`CreatedElsewhereUnblocks`).
- The publisher's stable form passes its top-level property names as the list of names to keep, and
  the list applies at every depth (section 25.5.2 of ECMA-262), so a read-back compares the
  envelope of a snapshot document and nothing of the snapshot (`ReadBackDecides`,
  `ReadBackIgnoresContent`), and of a principal's evidence only the tenant and the subject, not its
  groups, status or expiry (`MembershipReadBackDecides`, `MembershipReadBackIgnoresEvidence`).
- A publish leaves a target pending exactly when it repeats an earlier target's code
  (`FinishedAttemptDecides`, `AttemptEndsDecided`), and the revision then stays publishing unless
  another target failed (`NotSettledMeansPending`); a run over a target declared twice shows it
  (`RepeatedCodeStaysPending`). Codes are sorted but not deduplicated (`SortedCodesAreTheDeclared`).
- A publish writes only documents of targets pending in the version it started from
  (`PutsOnlyPendingTargets`). While this version is the stored one, it writes a verified target's document
  exactly when the target in hand repeats that target's code (`PutHitsVerifiedExactly`), as the resume of a
  revision that declares a target twice does (`RepeatedCodeRewritesVerified`). With distinct codes only an
  overtaken attempt writes such a document: overtaken by a resume it goes on writing
  (`OvertakenAttemptStillPuts`), even over what others published after the revision became active
  (`OvertakenRewriteHappens`).
- A forced save computed from an older reading takes the verification of a target away exactly when that
  reading did not have it yet (`StepUnverifiesExactly`, `OverwriteUnverifies`). Nothing else does
  (`VerifiedIsLostOnlyToOverwrites`).
- The dispatcher counts a send as delivered when it returned (`NotificationLedger.Dispatcher.Dispatch`), though the
  ledger may refuse to record it: two dispatches can send one notification twice and record one delivery
  (`UnrecordedDeliveryHappens`). It is recorded exactly when the ledger answers ok (`OkMeansOneCommit`).
- A counter far enough below zero makes the Int64 subtraction wrap, and the threshold test then says
  nothing was consumed (`CrossedExactly`, `CrossedIsMonotone`, `WrapHidesExhaustion`). A substitution survives
  more consumption exactly when something is under pressure without a wrap (`SubstitutionSurvivesExactly`,
  `WrapUndoesSubstitution`), and a throttle tier likewise (`SelectionIsMonotone`).
- A measuring counter meters the budget of the tier listed first, so the order of the tier list decides which tier
  is selected, unless every metered slot that holds a measurable tier belongs to one budget
  (`OrderIrrelevantExactly`, `FirstListedBudgetDecides`).
- Counter keys and cache keys join names with bars and colons without escaping them: names with such characters
  merge counters (`BarMergesCounters`, `BarMergesBudgets`, `ColonMergesMeasurements`), and a caller can share its
  cached policy with another one exactly when its subject or application id has a bar (`CacheKeySharedExactly`).
- `fallbackApplied` tells whether a hop was taken exactly when the requested model is on no allowed
  cycle (`AppliedMeansHopped`).

## Model

| member | source | states |
|---|---|---|
| Lifecycle.EveryRunIsSound | app/governance-domain/lifecycle/configuration-lifecycle.mjs:216-402 | After any commands and target reports, in any order: an active revision is fully verified, anything published has an approval on its record, and a withdrawn one never started publishing. |
| Lifecycle.EveryRunContinues | app/governance-domain/lifecycle/configuration-lifecycle.mjs:194-402 | Over any run the history only grows, declared targets stay, and a verified target stays verified through retries and late reports. |
| Lifecycle.SortedCodesAreTheDeclared | app/governance-domain/lifecycle/configuration-lifecycle.mjs:183-185 | The stored target codes are the declared ones in ascending order, repetitions kept. |
| Lifecycle.OfferedMeansAcceptable | app/governance-domain/lifecycle/configuration-lifecycle.mjs:426-440 | A command is offered on a screen exactly when some way of ordering it, as that viewer or as anybody where none is named, is accepted by the reducer. |
| Lifecycle.ClosedStaysClosed | app/governance-domain/lifecycle/configuration-lifecycle.mjs:244-246 | A withdrawn or superseded revision never changes again, whatever is ordered or reported. |
| Lifecycle.ActiveIsOnlySuperseded | app/governance-domain/lifecycle/configuration-lifecycle.mjs:244-349 | An active revision can only be superseded, with its targets as they are. |
| Lifecycle.EveryRunKeepsRecord | app/governance-domain/lifecycle/configuration-lifecycle.mjs:303-318 | Over any run the history is a connected path through the command table ending in the present state. |
| Lifecycle.EveryCreatedRevision | app/governance-domain/lifecycle/configuration-lifecycle.mjs:155-402 | A revision created over any codes, after any commands and reports: sound, its history connected and continuing the first one, its targets the declared codes. |
| LifecycleRules.RefusedExactly | app/governance-domain/lifecycle/configuration-lifecycle.mjs:216-301 | Each refusal is given exactly in its case: a stale revision number, a state that does not allow the command, an own approval not granted, another revision being published, an unverified target, a failure without a reason, no other revision to supersede by, a publish that has started. |
| LifecycleRules.AcceptedExactly | app/governance-domain/lifecycle/configuration-lifecycle.mjs:216-301 | An order is accepted where none of these cases holds, and there is no other refusal. |
| LifecycleRules.AcceptedDoes | app/governance-domain/lifecycle/configuration-lifecycle.mjs:303-349 | The state an accepted command leads to, the entry it records, the fields it sets, the targets a retry sets back; everything else stays. |
| LifecycleRules.ReportedExactly | app/governance-domain/lifecycle/configuration-lifecycle.mjs:357-402 | A report is refused exactly outside a publish, of a code not declared, of a failure without a reason, or where the outcome goes back; otherwise it sets the first target of that code and nothing else. |
| LifecycleRules.UnverifiedAreListed | app/governance-domain/lifecycle/configuration-lifecycle.mjs:271-278 | A refused completion names exactly the codes of the targets not verified. |
| ConfigurationConflict.CompareIsExact | app/governance-domain/lifecycle/configuration-conflict.mjs:35-100 | Two readings are compared exactly when they are of one revision. Diverged means the reading is not a prefix of the stored history; otherwise reading plus discarded entries is the stored history; no change means same history and every target held as it is; the numbers and the state are those of the two readings. |
| ConfigurationConflict.MovedTargetsShown | app/governance-domain/lifecycle/configuration-conflict.mjs:64-77 | The changes show every target whose last reading of that code differs in outcome or reason, or is missing, with what was held; and no other target. |
| ConfigurationConflict.DescribeIsExact | app/governance-domain/lifecycle/configuration-conflict.mjs:109-126 | A record is made exactly of a conflict, and lists the commands, the actors and the target codes discarded, by whom, when, and over which revision. |
| ConfigurationConflict.NothingMovedMeansSameOutcomes | app/governance-domain/lifecycle/configuration-conflict.mjs:64-77 | No target is listed exactly when none moved since the read. |
| ConfigurationConflict.Actors | app/governance-domain/lifecycle/configuration-conflict.mjs:123 | The discarded actors are those of the discarded entries, each once. |
| ConfigurationConflict.SelfComparisonIsQuiet | app/governance-domain/lifecycle/configuration-conflict.mjs:35-89 | A revision with distinct target codes never conflicts with itself. |
| ConfigurationWriter.EveryRunKeepsInv | app/control-api/configuration-writer.mjs:71-150 | The invariant of every interleaving of saves and outside writes: fresh tags, and each landing tied to the finished call that made it. |
| ConfigurationWriter.ReplacedOnlyByName | app/control-api/configuration-writer.mjs:112-135 | A stored version is replaced only by a writer holding exactly its tag, or by a forced writer whose acknowledged tag is exactly it; what is stored is the caller's order, under the number it stated, read or loaded, applied to the revision it loaded. |
| ConfigurationWriter.AtMostOneLanding | app/control-api/configuration-writer.mjs:71-150 | A call lands at most one write, and then answers neither a conflict nor a refusal. |
| ConfigurationWriter.LandedMeansSavedOrQuietOverwrite | app/control-api/configuration-writer.mjs:112-149 | A finished call landed a write exactly when it answers saved, or made a forced write over a version that shows no change, which throws. |
| ConfigurationWriter.OverwriteRecordsWhatItDiscarded | app/control-api/configuration-writer.mjs:120-148 | A forced landing compared the caller's own reading (the prior one it named, or else the revision it loaded) with the version shown, undiverged; that version is the discarded one exactly when the acknowledged tag was issued by the conflict read; and the answer carries the record of what was discarded, or throws where nothing was. |
| ConfigurationWriter.NothingDiscardedIsUnrecorded | app/control-api/configuration-writer.mjs:141-148 | Every entry of a discarded version survives in the new version or in the comparison on record, where the caller's prior reading is not ahead of what it loaded. |
| ConfigurationWriter.EveryAnswerIsExplained | app/control-api/configuration-writer.mjs:41-139 | In every run a finished call that wrote nothing answers the reducer's refusal, or reports what was stored at a read of its own: vanished, or how it differs from the prior reading the caller named, or else from the revision it loaded; of different revisions it throws. |
| ConfigurationWriter.StaleReadingNeverLands | app/control-api/configuration-writer.mjs:95-101 | A caller whose number, stated or read before, is not that of the revision it loaded is told of the conflict and never writes. |
| ConfigurationWriter.UndisturbedSaveLandsExactly | app/control-api/configuration-writer.mjs:71-139 | Undisturbed, a save writes exactly when the reducer accepts its order and it names the stored version: as its own reading, or forced, as the version it acknowledged, where that extends its reading. |
| ConfigurationWriter.GuessedTagMisreports | app/control-api/configuration-writer.mjs:120-148 | A run in which a tag guessed before it was issued makes the record describe another version than the one destroyed. |
| ConfigurationWriter.QuietOverwriteHappens | app/control-api/configuration-writer.mjs:120-148 | Runs in which the forced write lands and the call throws. |
| ConfigurationWriter.RevisionStore.Put | app/persistence/in-memory-governance-store.mjs:88-94 | A put that names a tag lands exactly when that tag is the stored one, and issues a new tag. |
| ConfigurationWriter.Writer.ReadForEdit | app/control-api/configuration-writer.mjs:33-39 | Answers the stored revision with its tag. |
| ConfigurationWriter.Writer.ConflictReport | app/control-api/configuration-writer.mjs:41-62 | Reports what is stored at that read, compared with the prior reading the caller named, or else with the revision it loaded. |
| ConfigurationWriter.Writer.Write | app/control-api/configuration-writer.mjs:112-139 | A write against the named version lands or leaves the call explaining a conflict. |
| ConfigurationWriter.Writer.Save | app/control-api/configuration-writer.mjs:71-150 | The whole call, with others acting at each await, is a run of the machine and gives its answer; a conflict tells of the caller's own reading. |
| ScheduleRecovery.PlanRefusedExactly | app/governance-domain/scheduling/schedule-recovery.mjs:145-158 | A plan is refused exactly when the clock is before the mark, or else another owner's lease is live, or else no whole window has closed since the mark; it gives that reason and the gap reported so far. |
| ScheduleRecovery.PlanCoversWhatIsOwed | app/governance-domain/scheduling/schedule-recovery.mjs:157-200 | The reported gap and the planned windows cover, without a hole, everything that has closed since the mark; windows are left out only when the most that may be run are planned. |
| ScheduleRecovery.CompletionRecordedExactly | app/governance-domain/scheduling/schedule-recovery.mjs:203-236 | A completion is recorded exactly by the owner of a live lease, for a mark within its plan that moves nothing back, and sets the mark, the instant and the lease only. |
| ScheduleRunner.EveryRunKeepsInv | app/control-api/schedule-runner.mjs:47-134 | The invariant of every run of ticks, failures, crashes and restarts with other seeds. |
| ScheduleRunner.OneGrid | app/control-api/schedule-runner.mjs:41-71 | The origin and interval stored first are never replaced, so all windows lie on one grid. |
| ScheduleRunner.EveryWindowIsAccounted | app/control-api/schedule-runner.mjs:85-116 | Each window between the first stored origin and the stored mark was run to completion by some tick or reported as skipped. |
| ScheduleRunner.MarkNeverDecreases | app/control-api/schedule-runner.mjs:73-116 | The stored completion mark never moves back. |
| ScheduleRunner.OneRunnerPerVersion | app/control-api/schedule-runner.mjs:73-83 | Of the ticks that read one checkpoint version at most one enters the run loop. |
| ScheduleRunner.OnlyTheClaimantSettles | app/control-api/schedule-runner.mjs:99-116 | A completion or release lands only directly on the tick's own claim, never over a newer one. |
| ScheduleRunner.OvertakenAfterExpiryOrByOwner | app/control-api/schedule-runner.mjs:47-83 | Whatever overtakes a tick in its loop is a claim made after the lease expired, or by the same owner. |
| ScheduleRunner.OverlapUnderLiveLease | app/control-api/schedule-runner.mjs:47-116 | In any run, two ticks overlap under a live lease only where the claim right after the earlier one is by the same owner or its clock is ahead of the later tick's. |
| ScheduleRunner.OverlapOnlyAfterExpiry | app/control-api/schedule-runner.mjs:47-116 | So where claims follow one clock and owners wait for their own ticks, two ticks overlap only after the earlier lease expired at the later one's clock. |
| ScheduleRunner.SameOwnerOverlaps | app/control-api/schedule-runner.mjs:47-83 | For any ticket with a window due, a run in which a second tick of the same owner enters the loop under a live lease. |
| ScheduleRunner.SkewedClocksOverlap | app/control-api/schedule-runner.mjs:47-116 | For any tick, a second owner's clock past its lease and a third owner's clock before its expiry: a run in which the first and the third are in the loop under that live lease. |
| ScheduleRunner.CheckpointStore.Put | app/persistence/in-memory-governance-store.mjs:82-95 | A put lands exactly when the tag named is the stored one, or nothing is stored and none is named. |
| ScheduleRunner.Runner.ReadAndPlan | app/control-api/schedule-runner.mjs:48-58 | Plans from the stored checkpoint, or from the seed when nothing is stored. |
| ScheduleRunner.Runner.StoreOrigin | app/control-api/schedule-runner.mjs:63-70 | Records the origin, and losing that race is no error. |
| ScheduleRunner.Runner.Claim | app/control-api/schedule-runner.mjs:73-83 | The claim lands against the version read, or the tick is skipped. |
| ScheduleRunner.Runner.RunWindows | app/control-api/schedule-runner.mjs:85-97 | Whatever the work answers, the count and the mark are of the windows it finished. |
| ScheduleRunner.Runner.Conclude | app/control-api/schedule-runner.mjs:99-116 | Records what finished, or releases the lease, against the tick's own claim. |
| ScheduleRunner.Runner.Tick | app/control-api/schedule-runner.mjs:47-134 | The whole tick is a run of the machine and gives its answer, which `TickAnswers` explains. |
| TickAnswers.EveryTickAnswersRightly | app/control-api/schedule-runner.mjs:47-134 | In every run: `ran` means the tick claimed the plan of what it read, its work returned for each of the planned windows and was handed no other, and they were recorded on that claim; `incomplete` means the work threw once, after the windows counted; skipped, it was handed no window, and stored its origin where nothing was stored; thrown, another version was stored than its claim. The gap is the plan's. |
| TickAnswers.SkippedForCause | app/control-api/schedule-runner.mjs:43-71 | A tick skipped for a reason read a checkpoint that calls for it: the clock before its mark, another owner's live lease, or no window closed since. |
| DraftAuthoring.NextRevisionNumber | app/control-api/draft-authoring.mjs:26-28 | The next number is one above the highest stored, or the first. |
| DraftAuthoring.RevisionIdDecodes | app/control-api/draft-authoring.mjs:67-68 | A revision id is its prefix and its number, padded with zeros to four digits and no further, and reads back to that number. |
| DraftAuthoring.RevisionIdsAreUnique | app/control-api/draft-authoring.mjs:67-68 | Two numbers never share an id. |
| DraftAuthoring.EveryRunKeepsInv | app/control-api/draft-authoring.mjs:58-85 | The invariant of every interleaving of proposals, crashes between the two writes, and outside revisions. |
| DraftAuthoring.CreatedRevisionHasItsDraft | app/control-api/draft-authoring.mjs:58-85 | Every revision a proposal created declares exactly the proposal's targets, all pending, by its author at its instant, and has its draft, written by the same call with the content, author and instant of that call. |
| DraftAuthoring.CreationIsStored | app/control-api/draft-authoring.mjs:75-83 | A step creates a revision only by storing it: the one its call then answers with. |
| ProposalAnswers.EveryProposalAnswersRightly | app/control-api/draft-authoring.mjs:58-85 | In every run a proposal took the number after the highest it read; answered with a revision, it stored its draft and then that revision, each under an id free at that moment; it threw only where its id was taken; and it is unavailable only where its content cannot be published. |
| DraftAuthoring.OneRevisionPerProposal | app/control-api/draft-authoring.mjs:58-85 | No call creates two revisions and no two calls create one. |
| DraftAuthoring.DraftsAreNeverReplaced | app/control-api/draft-authoring.mjs:70-101 | A stored draft is never replaced, so every later publish or retry applies the same content. |
| DraftAuthoring.UndisturbedProposalSucceedsExactly | app/control-api/draft-authoring.mjs:58-85 | From any state, a proposal nobody disturbs succeeds if and only if no draft and no revision has the next number's id. |
| DraftAuthoring.OrphanIsTheOnlyObstacle | app/control-api/draft-authoring.mjs:58-85 | In such runs an undisturbed proposal succeeds if and only if no call stands between its two writes. |
| DraftAuthoring.OrphanBlocksEveryProposal | app/control-api/draft-authoring.mjs:66-83 | While a draft's revision is missing and revisions are elsewhere only rewritten under their own id and number, no proposal by anyone creates a revision. |
| DraftAuthoring.CreatedElsewhereUnblocks | app/control-api/local-admin-server.mjs:475-485 | A revision created elsewhere with the blocked number, or a higher one, lets proposals succeed again. |
| DraftAuthoring.DraftAuthor.WriteDraft | app/control-api/draft-authoring.mjs:70-73 | The draft is created, or the call throws. |
| DraftAuthoring.DraftAuthor.WriteRevision | app/control-api/draft-authoring.mjs:75-83 | The revision is created, or the call throws. |
| DraftAuthoring.DraftAuthor.Propose | app/control-api/draft-authoring.mjs:58-85 | The whole call is a run of the machine and gives its answer. |
| GovernancePublisher.EveryRunKeepsInv | app/control-api/governance-publisher.mjs:70-208 | The invariant of every interleaving of publish and resume attempts, foreign writes and removals, other lifecycle commands, and forced saves from older readings. |
| GovernancePublisher.ActiveMeansEveryTargetProven | app/control-api/governance-publisher.mjs:70-208 | An active revision has every target verified, and for each one attempt put every document of it, accepted at one instant, and then read a matching one back: the document of each principal, of which there are some, or the snapshot of the code's kind. |
| GovernancePublisher.StoredRevisionOnlyContinues | app/control-api/proposal-publication.mjs:55-90 | Without forced saves a target once stored as verified stays verified, whatever attempts and retries follow. |
| GovernancePublisher.StepUnverifiesExactly | app/control-api/configuration-writer.mjs:112-135 | One step takes a stored verification away exactly when it is such a save and is accepted. |
| GovernancePublisher.VerifiedIsLostOnlyToOverwrites | app/control-api/configuration-writer.mjs:112-135 | Over any run, a verification that is gone was taken by a forced save computed from a version that did not have it. |
| GovernancePublisher.PutsOnlyPendingTargets | app/control-api/governance-publisher.mjs:165-186 | An attempt writes only documents of targets pending in the version it started from, each under the code it belongs to, of the published content, and accepted by the validators at the attempt's instant. |
| PublicationOutcomes.EveryPutWasAccepted | app/control-api/governance-publisher.mjs:70-151 | In every run each document an attempt put was put by a step of that attempt for a target then pending, against the version it had asked for, is the published content's own, and was accepted by the validators at the instant the attempt took up its targets. |
| PublicationOutcomes.EveryAttemptWasTakenUp | app/control-api/governance-publisher.mjs:159-170 | An attempt under way keeps the reading, the version and the instant it took its targets up with. |
| PublicationOutcomes.EveryTargetEndsAsItMust | app/control-api/governance-publisher.mjs:90-200 | In every run an attempt that went through its targets ended each of them as the content and the validators require: absent content as content-absent, rejected content as content-invalid, an unknown code as target-unknown, accepted content verified or failed in the store; so in the list of attempts and in the revision, which differs from the one it started with by these reports only. |
| PublicationOutcomes.TargetFailsAsObserved | app/control-api/governance-publisher.mjs:70-88 | A target fails in the store exactly as the store showed: the version no longer the one asked for, the document gone after the put, or there, accepted, and of another stable form. |
| PublicationOutcomes.RefusedWriteWasOvertaken | app/control-api/governance-publisher.mjs:74-79 | In every run a write is refused only if somebody wrote or removed the document since its version was asked for. |
| PublicationOutcomes.DocumentCodesAre | app/control-api/governance-publisher.mjs:23-48 | Which target code each document is written for. |
| PublicationOutcomes.SnapshotDocumentSays | app/governance-domain/policy/governance-snapshot-document.mjs:42-65 | Read by property name, a snapshot document says its id, scope, kind and content. |
| PublicationOutcomes.MembershipDocumentSays | app/governance-domain/directory/principal-membership-document.mjs:18-45 | Read by property name, a membership document says its id, scope, principal and evidence. |
| GovernancePublisher.UndisturbedSetMatchesTogether | app/control-api/governance-publisher.mjs:70-112 | With no other writer on the snapshot documents after the attempts wrote them, all verified snapshot targets hold this revision's content at once. |
| GovernancePublisher.FinishedAttemptDecides | app/control-api/governance-publisher.mjs:159-200 | The attempt list names each initially pending target once, in order; none is left pending exactly when no pending target repeats an earlier code. |
| GovernancePublisher.ReadBackDecides | app/control-api/governance-publisher.mjs:50-52 | A read-back matches exactly when the two contents agree on what the envelope's own property names leave of them. |
| GovernancePublisher.ReadBackIgnoresContent | app/control-api/governance-publisher.mjs:50-87 | Content none of whose properties is named like the envelope is not compared at all. |
| GovernancePublisher.MembershipReadBackDecides | app/control-api/governance-publisher.mjs:50-138 | A membership read-back matches exactly when the two pieces of evidence agree on what the envelope's own property names leave of them. |
| GovernancePublisher.MembershipReadBackIgnoresEvidence | app/control-api/governance-publisher.mjs:50-138 | Of a principal's evidence only the tenant and the subject are compared. |
| GovernancePublisher.MembershipPlanCoversAll | app/control-api/governance-publisher.mjs:114-150 | The membership target writes its principals in order up to the first rejected one, and can verify only when it writes all. |
| GovernancePublisher.PublicationStore.PutDocument | app/persistence/in-memory-governance-store.mjs:82-95 | A document put lands exactly when the version named is the stored one. |
| GovernancePublisher.PublicationStore.PutRevision | app/persistence/in-memory-governance-store.mjs:284-289 | A revision put lands exactly when the tag named is the stored one. |
| GovernancePublisher.Publisher.Write | app/control-api/governance-publisher.mjs:74-79 | The put against the version just asked for lands, or the target fails as write-refused. |
| GovernancePublisher.Publisher.WriteAndVerify | app/control-api/governance-publisher.mjs:70-88 | Put, read back, match: the result is the machine's for this document. |
| GovernancePublisher.Publisher.PublishSnapshot | app/control-api/governance-publisher.mjs:90-112 | One snapshot target, with absent and invalid content as failures; `PublicationOutcomes` says how it ends. |
| GovernancePublisher.Publisher.PublishMemberships | app/control-api/governance-publisher.mjs:114-151 | The membership target verifies only when every principal's document did. |
| GovernancePublisher.Publisher.PublishTarget | app/control-api/governance-publisher.mjs:172-186 | A target code is dispatched to its kind, or fails as unknown. |
| GovernancePublisher.Publisher.Publish | app/control-api/governance-publisher.mjs:159-208 | The loop over the targets ends with the machine's revision and attempt list, or throws. |
| VerifiedDocuments.PutHitsVerifiedExactly | app/control-api/governance-publisher.mjs:165-186 | On the stored version a put hits a verified target's document exactly when the target in hand repeats a verified code; with distinct codes only an overtaken attempt does. |
| VerifiedDocuments.OvertakenAttemptStillPuts | app/control-api/governance-publisher.mjs:70-79 | An attempt whose version was replaced still puts its next document, though the stored revision has that code verified. |
| VerifiedDocuments.OvertakenRewriteHappens | app/control-api/governance-publisher.mjs:165-208 | A run in which a revision is active, others replaced its verified target's document since, and the overtaken attempt writes the old one over it. |
| VerifiedDocuments.RepeatedCodeStaysPending | app/control-api/proposal-publication.mjs:58-90 | A run over a target declared twice ends with the second one pending, the revision publishing, and no command to settle it. |
| VerifiedDocuments.RepeatedCodeRewritesVerified | app/functions/handlers/publish-governance.mjs:305-372 | The resume of that revision puts the document again, on the stored version, though the first of the two targets is stored as verified. |
| VerifiedDocuments.OverwriteUnverifies | app/control-api/configuration-writer.mjs:112-135 | A run in which a forced save from the version before an attempt makes its verified target pending again. |
| ProposalPublication.CountsTell | app/governance-domain/lifecycle/configuration-lifecycle.mjs:442-452 | The counts of a summary tell whether all targets, and whether any target, have an outcome. |
| ProposalPublication.DecidedIsSettled | app/control-api/proposal-publication.mjs:62-90 | With every target verified or failed exactly one of complete and fail applies, is accepted, and ends active or failed accordingly. |
| ProposalPublication.SettlingEndsPublishing | app/control-api/proposal-publication.mjs:62-90 | Whichever command applies is never refused and ends the publishing state. |
| ProposalPublication.NotSettledMeansPending | app/control-api/proposal-publication.mjs:62-90 | Neither command applies exactly when some target is unverified and none failed. |
| PublicationOrders.SettledBy | app/control-api/proposal-publication.mjs:62-90 | With every target verified the revision is completed, otherwise with a failed one it is failed for the reason of the first, and otherwise left as it is. |
| PublicationOrders.SettledAs | app/control-api/proposal-publication.mjs:62-90 | Settled, a publishing revision is active exactly with every target verified and failed exactly with one failed, its targets unchanged. |
| PublicationOrders.PublishIsGiven | app/control-api/proposal-publication.mjs:45-56 | A publish states what is in flight, and is accepted exactly of an approved revision beside no other. |
| PublicationOrders.ApproveIsGiven | app/functions/handlers/publish-governance.mjs:305-352 | An approval states whether its actor may approve an own change, and is accepted exactly of a draft by another or with that right. |
| PublicationOrders.ResumeOrdersAre | app/functions/handlers/publish-governance.mjs:274-401 | A resume orders approve and publish of a draft, publish of an approved proposal, fail and retry of one left publishing, and retry of any other. |
| PublicationOrders.RerunStartsOver | app/functions/handlers/publish-governance.mjs:305-401 | A rerun is accepted exactly of a proposal publishing or failed, keeps its verified targets and sets every other back to pending. |
| ProposalPublication.AttemptEndsDecided | app/control-api/governance-publisher.mjs:159-200 | A finished attempt has every target decided exactly when no pending target repeated an earlier code. |
| ProposalPublication.OwnTargetsNeverRepeat | app/control-api/governance-publisher.mjs:45-48 | A revision declared over them repeats no code, so its publishes are always settled. |
| ProposalPublication.ProposalPublisher.Persist | app/control-api/proposal-publication.mjs:45-56 | One command, persisted against the version in hand. |
| ProposalPublication.ProposalPublisher.Conclude | app/control-api/proposal-publication.mjs:62-90 | Exactly the settling command is ordered, if one applies, and the answer is the revision it leads to. |
| ProposalPublication.ProposalPublisher.RunTargets | app/control-api/proposal-publication.mjs:58-90 | A finished run is of an attempt that went through every target of the revision in hand, settled by exactly the command that applies to what it ended with; active or failed when no pending target repeats a code. |
| ProposalPublication.ProposalPublisher.Publish | app/control-api/proposal-publication.mjs:28-104 | Orders the publish of the revision found and is refused exactly when the reducer refuses that; a finished call ran the targets of the revision that led to and ordered nothing but the settling command after it. |
| ProposalPublication.ProposalPublisher.Rerun | app/functions/handlers/publish-governance.mjs:305-401 | A proposal left publishing or failed is failed, retried and run through its targets again, with exactly those commands; any other is refused. |
| ProposalPublication.ProposalPublisher.ApproveAndPublish | app/functions/handlers/publish-governance.mjs:305-352 | A draft is approved and what is stored then is published, with exactly those two commands before the settling one. |
| ProposalPublication.ProposalPublisher.Resume | app/functions/handlers/publish-governance.mjs:274-401 | A draft is approved, an approved proposal published afresh, any other run again: refused exactly when the reducer refuses one of those commands, or as the bootstrap author or without content under the stated conditions. |
| NotificationDelivery.EveryFoldIsSound | app/governance-domain/notification/notification-delivery.mjs:147-217 | However a record's accepted changes came about: at most five attempts, only the last one delivered; delivery state, next attempt and reason follow from them. |
| NotificationDelivery.AcknowledgementIsLast | app/governance-domain/notification/notification-delivery.mjs:155-217 | Nothing is recorded after an acknowledgement, which is on record with its own actor and instant. |
| NotificationDelivery.ChangesAreAcceptedExactly | app/governance-domain/notification/notification-delivery.mjs:147-217 | A record accepts an attempt exactly until it is acknowledged, one was delivered or five were made, and an acknowledgement exactly once, when no attempt is left; which refusal each other case gives. |
| NotificationDelivery.NextAttemptIs | app/governance-domain/notification/notification-delivery.mjs:147-200 | The next attempt is due at once, then one, two, four and eight minutes after the last. |
| NotificationLedger.EveryRunKeepsInv | app/control-api/notification-ledger.mjs:26-98 | The invariant of every interleaving of sweeps, deliveries and acknowledgements. |
| NotificationLedger.RecordIsFoldOfCommits | app/control-api/notification-ledger.mjs:72-98 | A stored record is the fold, in commit order, of the changes committed on it. |
| NotificationLedger.OkMeansOneCommit | app/control-api/notification-ledger.mjs:72-88 | An ok answer is exactly one commit of that change; any other answer is none. |
| LedgerAnswers.EveryOperationAnswersRightly | app/control-api/notification-ledger.mjs:72-98 | In every run a finished operation answers absent exactly where nothing was stored when it read, its change applied or refused by the record it read, and changed-since-read only where its put found another version. |
| LedgerAnswers.DueExactly | app/control-api/notification-ledger.mjs:62-70 | A stored record is due exactly while no attempt was delivered, fewer than five were made and the wait after the last is over. |
| NotificationLedger.EveryStepIsAtomic | app/control-api/notification-ledger.mjs:72-88 | A commit applies the change to the record stored at that moment; every other step leaves all records alone. |
| NotificationLedger.AttemptsAreNeverLost | app/control-api/notification-ledger.mjs:79-86 | Recorded attempts are never lost or rewritten by what follows. |
| NotificationLedger.CreatedOnce | app/control-api/notification-ledger.mjs:41-47 | Each key is created once, and is stored exactly then. |
| NotificationLedger.EveryAttemptHasItsSend | app/control-api/notification-dispatcher.mjs:65-82 | Every recorded attempt is of its own send, with its channel and instant; it is delivered exactly if that send returned, and otherwise states the bounded reason the channel gave, or that it was unreachable. |
| NotificationLedger.NotificationStore.Put | app/persistence/in-memory-governance-store.mjs:82-95 | A put lands exactly when the version named, or none, is the stored one. |
| NotificationLedger.Ledger.RaiseOne | app/control-api/notification-ledger.mjs:31-47 | A create lands exactly when nobody holds the key at that moment. |
| NotificationLedger.Ledger.Raise | app/control-api/notification-ledger.mjs:26-51 | One create per planned notification, in order; one answer lists, in input order, exactly the keys nobody held at the moment of their create, the other exactly the rest. |
| NotificationLedger.Ledger.Apply | app/control-api/notification-ledger.mjs:72-88 | The read, the change and the conditional put are a run of the machine and give its answer. |
| NotificationLedger.Ledger.Acknowledge | app/control-api/notification-ledger.mjs:96-98 | The same for an acknowledgement. |
| NotificationLedger.Ledger.DueForDelivery | app/control-api/notification-ledger.mjs:62-70 | Exactly the records due at this instant, each once. |
| NotificationLedger.Dispatcher.SendAndRecord | app/control-api/notification-dispatcher.mjs:66-82 | One send, and the recording of what it answered, under a number of its own. |
| NotificationLedger.Dispatcher.Dispatch | app/control-api/notification-dispatcher.mjs:48-88 | The batch is exactly the records due at the query; with a channel each is sent once and its answer handed to the ledger, nothing else is sent, delivered counts the sends that returned and considered = delivered + failed. |
| NotificationLedger.UnrecordedDeliveryHappens | app/control-api/notification-dispatcher.mjs:66-84 | A run in which two dispatches send one due notification, both sends return, and the ledger records one of them. |
| DecimalThreshold.DecimalTestIsExact | apim/policies/inference.xml:593 | For every Int64 counter and positive quota, divide, scale and compare in System.Decimal agrees with integer cross-multiplication, and nothing overflows. |
| DecimalThreshold.CrossedExactly | apim/policies/inference.xml:770-776 | Against a positive mark the test says exactly "this much was consumed", unless the Int64 subtraction wraps. |
| DecimalThreshold.CrossedIsMonotone | apim/policies/inference.xml:592-593 | More consumption un-crosses a positive mark exactly when the subtraction wraps. |
| DecimalThreshold.WrapHidesExhaustion | apim/policies/inference.xml:593 | Where the subtraction wraps, an exhausted quota tests as unused. |
| EffectiveModel.EffectiveModel | apim/policies/inference.xml:568-619 | The expression, with its loops and early returns, computes the specified model. |
| GatewayChoices.ServedModelIs | apim/policies/inference.xml:568-619 | A request is served the model it asks for unless fallback is enabled, the caller prefers, a positive threshold is set, and the first all-models limit of some metered scope, or the model's own stated share, has reached it; then by the end of a walk from that model along first edges to allowed models. |
| EffectiveModel.WalkFollowsAllowedEdges | apim/policies/inference.xml:605-618 | The walk takes at most the allowed depth of hops, each along the first edge leaving its model, to an allowed model, and stops early only where none leaves. |
| EffectiveModel.ServedModelIsAllowed | apim/policies/inference.xml:412-618 | An admitted request is served by a model of its own allowlist. |
| EffectiveModel.ScopeBreachedExactly | apim/policies/inference.xml:584-594 | A metered scope is under pressure exactly when that share of its quota is consumed and nothing wraps. |
| EffectiveModel.BreachedExactly | apim/policies/inference.xml:583-603 | A substitute is looked for exactly when the model itself, or some metered scope without a wrap, is under pressure. |
| EffectiveModel.SubstitutionSurvivesExactly | apim/policies/inference.xml:583-603 | A substitution at higher counters is the same at lower ones exactly when the model, or some metered scope without a wrap, is under pressure there. |
| EffectiveModel.AppliedMeansHopped | apim/policies/inference.xml:620 | The answer differs from the requested model exactly when a hop was taken, for every depth, if and only if that model is on no allowed cycle. |
| EffectiveModel.SubstitutionSurvivesConsumption | apim/policies/inference.xml:583-603 | Lowering counters keeps a substitution while one scope that was under pressure does not wrap. |
| EffectiveModel.WrapsHideEveryBreach | apim/policies/inference.xml:583-603 | With every metered budget past the wrap, only the model's own pressure substitutes. |
| EffectiveModel.WrapUndoesSubstitution | apim/policies/inference.xml:583-603 | A policy and two counters: the exhausted budget serves the substitute, the more exhausted one does not. |
| ThrottleTier.SelectTier | apim/policies/inference.xml:740-779 | The loop computes the specified tier. |
| GatewayChoices.SelectedTierIs | apim/policies/inference.xml:740-779 | The minimal tier where one of that code is reached in its own slot, else the reduced one where one is, else none. |
| GatewayChoices.MeasuredExactly | apim/policies/inference.xml:663-735 | A slot has a counter exactly where some tier is measured in it, and for a team's slot the caller has a team; it meters the budget of the first such tier. |
| ThrottleTier.SelectedIsMostSevere | apim/policies/inference.xml:753-778 | The selected tier is the most severe eligible crossed one, and empty means none is crossed. |
| ThrottleTier.SelectionIgnoresOrder | apim/policies/inference.xml:755-777 | Only which tiers the list holds matters, not their order or repetition. |
| ThrottleTier.SelectionIsMonotone | apim/policies/inference.xml:767-776 | Lower counters select at least as severe a tier exactly when some tier that severe is still reached, and always while none wraps. |
| ThrottleTier.TierCrossedExactly | apim/policies/inference.xml:768-776 | Against a positive mark a tier is crossed exactly when that share of its quota was measured as consumed without a wrap. |
| ThrottleTier.PipelineIgnoresOrder | apim/policies/inference.xml:663-779 | Metering and selecting together ignore the order of the tiers when every metered slot holding a measurable tier has one budget. |
| ThrottleTier.OrderIrrelevantExactly | apim/policies/inference.xml:663-779 | For marks and quotas in range: every list of the same tiers selects the same, whatever was consumed, if and only if every such slot has one budget. |
| ThrottleTier.FirstListedBudgetDecides | apim/policies/inference.xml:663-711 | With two budgets in one scope the order alone decides between the severest tier and none. |
| CounterKeys.KeyReadsBack | apim/policies/inference.xml:478-562 | A token counter's key reads back to its scope, principal, model, budget id and version, for any budget id and for names without the one character that ends them in this kind of key. |
| CounterKeys.KeysAreInjective | apim/policies/inference.xml:691-838 | Two token counters, measuring ones included, share a key only if they agree in all of these. |
| CounterKeys.BarMergesCounters | apim/policies/inference.xml:552 | A bar in a team key merges its counter with another team's model counter. |
| CounterKeys.BarMergesBudgets | apim/policies/inference.xml:557 | A bar in a subject key merges it with another subject's budget. |
| CounterKeys.ColonMergesMeasurements | apim/policies/inference.xml:723-734 | A colon in a model key merges two measuring counters. |
| CounterKeys.RequestKeysAreInjective | apim/policies/inference.xml:518-541 | Request counters never share a key, whatever their principals are called. |
| PolicyAdmission.EveryRunKeepsInv | apim/policies/inference.xml:238-389 | The invariant of every interleaving of requests, answers, stores and expiries. |
| PolicyAdmission.ForwardedOnlyUnderOwnPolicy | apim/policies/inference.xml:238-653 | Where application ids, or the caller's own names, have no bar: a request is forwarded only under a well-shaped 200 answer for the same subject, application and family, with its model allowed and the served one mapped to a deployment. |
| PolicyAdmission.CacheHoldsOnlyAnswers | apim/policies/inference.xml:276-313 | Whatever is cached is a recorded answer under its key. |
| AdmissionAnswers.CachedOnlyIfServed | apim/policies/inference.xml:276-313 | Whatever is cached was heard by a request of that key in an answer 200 whose document has each property the gateway asks for. |
| AdmissionAnswers.EveryAnswerWasHeard | apim/policies/inference.xml:276-313 | Every recorded answer was heard so, by a request of those names. |
| AdmissionAnswers.EveryServedIsAnswer | apim/policies/inference.xml:276-313 | And every such reply to a question is on record. |
| AdmissionAnswers.EveryRequestIsAnsweredRightly | apim/policies/inference.xml:238-389 | In every run a request is decided, on counters it settled on, under the policy cached when it began, or answered to it, or in compatibility mode the fallback; or refused because it was told so; or unavailable because there was no policy and no refusal. |
| AdmissionAnswers.RefusedExactlyWhenTold | apim/policies/inference.xml:314-357 | A caller is refused if and only if its own question was answered 403, in a readable body with a null document and one of the three known reasons. |
| AdmissionAnswers.DecisionIsTheFirstFailure | apim/policies/inference.xml:411-840 | Under a policy the first of these that fails decides: the model is listed, the limits, the served model's deployment (the first mapping of it), the measuring counters, the selected tier's rate, the model's limits. |
| PolicyAdmission.CacheKeyIsInjective | apim/policies/inference.xml:238 | Among application ids without a bar a cache key belongs to one subject, application and family. |
| PolicyAdmission.BarSharesCacheEntry | apim/policies/inference.xml:238 | A bar in an application id gives two callers one cache entry. |
| PolicyAdmission.CacheKeySharedExactly | apim/policies/inference.xml:238 | Another caller shares a caller's cache key if and only if its subject or application id has a bar. |
| PolicyAdmission.Gateway.Handle | apim/policies/inference.xml:238-389 | The request looks up, hears the reply given, stores and settles in this order and no more, and is decided under the policy its lookup and that reply determine; it is refused exactly where nothing was cached and the reply is a 403 that says so. |
| PolicyAdmission.Gateway.Resolve | apim/policies/inference.xml:240-357 | The reply is heard once; a well-shaped 200 document it offers, spelled out, is stored under the request's key, and a 403 that says so refuses the caller. |
| PolicyAdmission.Gateway.Admit | apim/policies/inference.xml:411-840 | The allowlist, the limits, the served model, its deployment, the measuring counters, the selected tier and the model's limits, in that order, on the counters given. |
| UsageAggregation.TotalsAreDirect | app/control-api/usage-read-model-projector.mjs:219-246 | Totals merged from per-entity buckets equal accumulating the same keyed records into one bucket, first-seen provider codes aside. |
| UsageAggregation.TotalsAreDirectWithOneProvider | app/control-api/usage-read-model-projector.mjs:97-117 | With one provider per model they are equal outright. |
| UsageAggregation.OrderDoesNotMatter | app/control-api/usage-read-model-projector.mjs:133-162 | No order of the records gives another bucket, provider codes aside. |
| UsageAggregation.AccumulationSplits | app/control-api/usage-read-model-projector.mjs:133-162 | Accumulating one batch after another is merging their buckets. |
| UsageAggregation.BucketCounts | app/control-api/usage-read-model-projector.mjs:133-152 | Every count of a bucket is the sum or the number it is named after, over the records. |
| UsageAggregation.ModelCounts | app/control-api/usage-read-model-projector.mjs:154-161 | A model's share counts the records it served, their tokens, substitutions and requested models. |
| UsageAggregation.ModelNames | app/control-api/usage-read-model-projector.mjs:154-161 | A model's provider is the one its first record names, its qualities those of its records. |
| UsageAggregation.ReasonsAreStated | app/control-api/usage-read-model-projector.mjs:143-150 | The reasons a bucket names are those its unavailable attributions state. |
| UsageAggregation.AccumulationBalances | app/control-api/usage-read-model-projector.mjs:133-162 | Requests are the records; outcomes, attributions and models each sum to them, and tokens and substitutions to the models'. |
| UsageAggregation.BucketsBalance | app/control-api/usage-read-model-projector.mjs:219-227 | Every entity's bucket balances. |
| UsageAggregation.BucketsAreDirect | app/control-api/usage-read-model-projector.mjs:219-227 | One bucket per entity that appears and none for any other, each the direct accumulation of that entity's own records. |
| UsageAggregation.PublishedTotals | app/control-api/usage-read-model-projector.mjs:194-246 | The published totals balance, equal direct accumulation of the visible keyed records, and do not depend on their order. |
| UsageAggregation.PublishedRows | app/control-api/usage-read-model-projector.mjs:194-227 | The published rows, by ascending key, are the visible entities' own buckets; each is one the caller's authority admits: among users its own if it is confined to itself, among groups one of its teams. |
| PublishedUsage.RowsCountTheirOwn | app/control-api/usage-read-model-projector.mjs:54-66 | Each row counts exactly one entity's records within the caller's reach, each as often as recorded: a team's caller gets only that team's records in either view, one confined to itself only its own; and every such record with an entity is in that entity's row. |
| PublishedUsage.TotalsCountTheCovered | app/control-api/usage-read-model-projector.mjs:219-246 | The totals count exactly the records within the caller's reach that have an entity; provider codes aside. |
| PublishedUsage.VisibleRecordsAre | app/control-api/usage-read-model-projector.mjs:54-66 | The records a caller sees are those its reach covers, each as often as recorded. |
| PublishedUsage.UsageIsDeniedExactly | app/control-api/usage-read-model-projector.mjs:46-66 | A screen is refused exactly where authority does not permit the reach, where one confined to itself asks for groups, or where counts are measured and it is not known who it is. |
| PublishedUsage.ScopeIsDeniedExactly | app/control-api/admin-read-authorization.mjs:1-30 | Authority that was not established, a scope not granted, and a team that is not one of the caller's are told apart. |
| UsageAggregation.SealedClaimsHoldOfEveryRecord | app/control-api/usage-read-model-projector.mjs:67-95 | A sealed bucket claims one token quality, or none known, and strong, generic or unavailable attribution, exactly when every record supports it; anything else is mixed. |
| UsageAggregation.UsageBucket.Accumulate | app/control-api/usage-read-model-projector.mjs:133-162 | One record is added to every count of the bucket. |
| UsageAggregation.UsageBucket.Absorb | app/control-api/usage-read-model-projector.mjs:230-246 | One bucket is merged into the totals. |
| UsageAggregation.UsageBucket.AbsorbModels | app/control-api/usage-read-model-projector.mjs:242-245 | The models of a bucket are merged in, whatever order they come in. |
| UsageAggregation.Deposit | app/control-api/usage-read-model-projector.mjs:224-225 | A record goes to its entity's bucket, created at the entity's first record. |
| UsageAggregation.DepositAll | app/control-api/usage-read-model-projector.mjs:219-227 | The loop leaves one bucket per entity with the specified content. |
| UsageAggregation.Total | app/control-api/usage-read-model-projector.mjs:229-246 | The totals loop merges them all. |
| UsageAggregation.ProjectUsage | app/control-api/usage-read-model-projector.mjs:194-271 | Who may read, the visible records, buckets, totals and rows by key; nothing is counted from a degraded window. |
| ModelsProjection.EveryModelHasOneRow | app/control-api/models-read-model-projector.mjs:250-294 | Registry models and served models have exactly one row each, by ascending key, and nothing else has; the descriptor is the catalogue's first of the model, the limits are the range of the active bindings that list it, the consumption that of the records the model served. |
| ModelsProjection.JoinLosesNothing | app/control-api/models-read-model-projector.mjs:250-294 | The rows together account for every visible request once. |
| ModelsProjection.SummaryIsTight | app/control-api/models-read-model-projector.mjs:133-142 | The published range covers every granting binding and is attained at both ends. |
| ModelsProjection.GrantsAreThose | app/control-api/models-read-model-projector.mjs:259-266 | The granting bindings of a model are the active ones that list it, counted once for every listing. |
| ModelsProjection.CollectGrants | app/control-api/models-read-model-projector.mjs:259-266 | The nested loops collect them for every model. |
| ModelsProjection.CollectKeys | app/control-api/models-read-model-projector.mjs:268-271 | The keys are those of both sides, each once. |
| ModelsProjection.ProjectModels | app/control-api/models-read-model-projector.mjs:223-294 | Who may read, and the specified rows by key. |
| Json.StringReadsBack | app/control-api/policy-impact-preview.mjs:34-36 | An escaped string reads back to its code units, lone surrogates included. |
| Json.WriteIsInjective | app/control-api/policy-impact-preview.mjs:34-36 | JSON text without spaces determines the value it was written from. |
| CanonicalForm.FingerprintDecides | app/control-api/policy-impact-preview.mjs:24-36 | Fingerprints are equal exactly when the values are equal up to object key order at every depth. |
| CanonicalForm.CanonicalSaysTheSame | app/control-api/policy-impact-preview.mjs:24-32 | Sorting keys changes nothing the value says. |
| CanonicalForm.CanonicalIsIdempotent | app/control-api/policy-impact-preview.mjs:24-32 | The canonical form is its own canonical form. |
| CanonicalForm.StableFormDecides | app/control-api/governance-publisher.mjs:50-52 | Stable forms agree exactly when the documents agree after the top-level names filter every depth. |
| CanonicalForm.StableFormWithOneProperty | app/control-api/governance-publisher.mjs:50-52 | Documents alike but for one property have one stable form exactly when that property projects alike. |
| PolicyImpactPreview.FieldChangesAreExact | app/control-api/policy-impact-preview.mjs:78-86 | The changes name exactly the differing fields, with what each side shows. |
| PolicyImpactPreview.NoChangeMeansNoDifference | app/control-api/policy-impact-preview.mjs:44-92 | "No change" is claimed exactly when both sides resolve, for one reason, to policies alike in every field. |
| PolicyImpactPreview.ComparisonTells | app/control-api/policy-impact-preview.mjs:44-92 | Unavailable exactly where a side neither resolves nor is refused with 403, refused exactly where both are, changed wherever else they stand differently or for another reason; of two alike, the differing fields and only those, each side shown as it is. |
| PolicyImpactPreview.HeldBetweenReads | app/control-api/policy-impact-preview.mjs:157-185 | Two readings with equal fingerprints, and no document returning to earlier content: the set held, together, at every moment in between. |
| PolicyImpactPreview.Stores.ReadActive | app/control-api/policy-impact-preview.mjs:157 | Each document of the set was stored at some moment of the reading. |
| PolicyImpactPreview.PolicyPreview.FirstReads | app/control-api/policy-impact-preview.mjs:148-164 | The reads before resolution in their order, with the error each raises: what the revision's number and state, a missing document, or the draft call for. |
| PolicyImpactPreview.PolicyPreview.SecondReads | app/control-api/policy-impact-preview.mjs:173-177 | Seven reads in whatever order they come: each answer is of a moment since the start, and a missing document ends them. |
| PolicyImpactPreview.PolicyPreview.Preview | app/control-api/policy-impact-preview.mjs:128-229 | A preview that returns read everything twice alike, compares the stored proposal with a set that held throughout, names the revision and basis read, and lists the differing fields exactly; one that raises raises the error its reads call for. |

## Left out

- Syntax of identifiers, instants, reason codes of callers and document shapes, and the TypeErrors they raise: the model takes well-formed values; validators of published documents are a parameter.
- HTTP routing, authentication, pseudonyms, webhook transport and the rendering of responses: subject, application and actor are given values.
- Transport failures of the store: a put either lands or is refused by its tag; a put that lands and whose answer is lost is not modelled.
- Several documents of one kind: each machine holds one revision, one checkpoint or one set of notification keys in one scope group; document ids built from the scope group are not modelled.
- Retention deletion of notifications and the removal services; removal of published documents by others is modelled.
- Who may start a publish: the route's look for another revision in flight is a separate earlier read, given here as a parameter.
- The upgrade of legacy budget documents on reading is a parameter of the publisher, applied to every document read back.
- Json: numbers are their shortest decimal text, so floating-point parsing and printing are not part of this model; values are data without functions, dates or `toJSON`.
- ModelsProjection.ProjectModels: leaves out provider quota, provider agreement, available deployments and freshness labels, which are single-branch facts of one row.
- UsageAggregation.ProjectUsage: leaves out the window's labels, and keeps the models inside a row as a map; the locale's order of keys is a parameter.
- The gateway's rate and token limit policies themselves: what they leave in their variables and which of them refuse are parameters; headers, traces and metrics are left out.
- Exceptions inside policy expressions on documents the shape test accepts, such as a fallback without a chain.
- Counter keys take the budget from the limit that names it; which limit supplies the quota beside it is not part of the key.
- The budget, overview, change-log, directory and lifecycle screens, the drift detector, the rollup projector and the sweeps: each is a projection of one document or a loop over the operations modelled here.

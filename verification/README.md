# Release engine, provisioning and evidence tooling: a Dafny model

The repository releases a set of components (document import, export job, auth, bff, worker, front-end) in two stages,
provisions one environment by hand-reviewed scripts, and looks up traces afterwards. This project models the parts of
that tooling whose correctness does not show in any one function body, and proves what they promise over every run.

`dafny verify dfyconfig.toml` checks everything.

## How the runtime is modelled

- **Adversary.** The provider, the checkpoint store and every other writer are nondeterministic. A call may take effect
  or not and may report success, failure or nothing usable; a readback may match or not; a save may fail before or after
  it took effect. Where an assumption about the outside is needed for a result it is listed below.
- **Journals.** The engine's class carries a journal of what the checkpoint store and the provider were asked and
  answered. Every answer that decides something is an event, noted where the call is made, and what the engine records or
  concludes is tied to those events by laws and contracts. A method may append an event only if the law of the journal
  (`Journals.Allowed`) permits it there, so verifying the methods proves that every run is lawful, and the theorems of
  `Journals` are inductions over lawful journals. A crash cuts the journal anywhere; `PrefixLawful` says the law survives
  that, and a process starts again from the last saved checkpoint (`DurableAt`), which its journal notes as `Started`. `Engines.RunAttempt` runs one attempt through any number of entrypoints, crashes and restarts
  into one lawful journal. `Builds` treats the image builds in the same way.
- **Several attempts.** `Fences` interleaves the journals of any number of attempts on one environment, each started
  from a retained copy of a checkpoint however old, each cut off anywhere. `Fences.Environment.RunAttempts` ties the two
  together: what the log holds of each prepared attempt is one lawful journal, so every theorem about lawful journals
  holds of each attempt under interleaving (`PublishedOnceInLog` draws one of them).
- **In place.** Objects whose methods change fields are classes (`Engines.Engine`, `Fences.Environment`, `Iam.Server`,
  `Iam.Evidence`, `Builds.Preparer`, `Provisioning.Provisioner`); loops are loops with invariants; pure code is functions.

Files, one for each module: `Checkpoints`, `Journals`, `Engines`, `Fences`, `QuotaRepeats`,
`CarriedRetries` (the release engine), `Builds`,
`Provisioning`, `Iam` (builds and access policy), `SpanCycles`, `SpanForests`, `SpanTrees`, `Paginations` (traces and
listings), `Gzip`, `Base64s`, `Utf8s`, `Truncations`, `TreeDigests`, `BraceScanners` (byte-level formats), and `Bytes`,
`Orderings`, `Sequences`, `Results`, `Wrappers` (shared).

## Assumptions

- `deploy/engine/artifacts.cjs` is not part of this model. Its `latest` is taken to yield the newest uploaded checkpoint of
  the environment whose name starts with `lwc-state-`, which by `deploy/engine/engine.py:471` is every checkpoint saved
  with a status other than `prepared` and `ready`.
- Entrypoints on one environment are serialised by the workflow, as `deploy/engine/engine.py:1134` says.
- A policy server never gives one etag to two different policies, stores the policy it accepts apart from the etag, and
  reports success only for an accepted write. A failure may be reported for any write, accepted or not.
- `time.sleep(5)` lasts at least five seconds.

## Where the code does less than it looks

Each of these is a lemma with a concrete case, or with the exact condition under which it happens.

- A deploy that meets an entry under recovery refuses it in the middle of its loop and leaves the components it had
  taken up before changed and not compensated (`RefusalLeavesChanges`; exactly when: `RefusalIsClean`).
- The retained quota history keeps one of several equal rejections while each of them arms a retry, so it does not bound
  the number of submissions: one record can stand for any number (`RepeatsAreFree`). The rejections reported do bound it
  (`SubmissionsArePaidFor`). The history accounts for every armed retry exactly if no rejection that armed one was in it
  already (`HistoryCountsArmings`), and short of that the repeated ones are all that is missing from the bound
  (`HistoryAndRepeatsBoundSubmissions`; without any, `HistoryBoundsSubmissions`). Over all epochs of an attempt nothing pays
  twice (`AllSubmissionsArePaidFor`).
- An authorisation not used up when the front-end settles pays for a submission of the next epoch, which then has two
  submissions and no rejection (`OldRejectionPaysAgain`, after the run of `CarriedRuns`). An epoch pays for its own
  submissions exactly unless the save that opens it has a retry pending and no deployment recorded (`CarriedPaysExactly`).
- The runtime guard compares plan and sequence only. If a plan was started twice from its ready artifact, an old copy
  with the same sequence passes (`StaleCopyPasses`). A stale copy passes exactly if the newest checkpoint has a twin with
  its sequence (`StaleCopiesAreTwins`), and none ever does exactly if sequences tell the saves of each plan apart
  (`NoStaleCopyEver`); `ResumingKeepsLinear` and `RunAttempts` keep them apart. The fence itself holds in any case
  (`Environment.Run`).
- A compensated attempt counts as resolved although entries that an earlier run left open may still be open
  (`CompensationLeavesWorkerOpen`). Known before the call: compensation is sure to leave nothing open exactly if nothing
  but the first entry taken up is open (`OnlyTheFirstMayBeOpen`).
- A permission error reported for a submission that was accepted all the same lets a second build be submitted beside a
  living one (`RejectionsMayNotBeHonest`). Exactly the builds whose record does not end in that rejection were seen to
  fail before they were replaced (`FailureIsSeenUnlessRejected`, `ReplacedBuildsFailed`), so with honest rejections only
  the last accepted build can be alive (`AcceptedBuildsAreOver`).
- The policy cleanup looks at the first binding of the role and condition only; a repeated binding that still grants the
  member is reported as absent (`AbsenceMayBeOverlooked`). For a role and condition absence is reported rightly exactly if
  the first binding names everyone whom a later one names and who does not hold the role otherwise (`AbsenceIsRight`). The
  message that a policy kept changing is never given, because the last conflict is already reported as a failed update.
- The evidence of a policy edit may say that this run wrote nothing although a write answered with a conflict was accepted;
  it says so rightly, whatever the answers hid, exactly if the first policy read already made the grant
  (`ByThisRunIsRight`).
- The deterministic gzip of empty data has no block and cannot be read back (`GzipRoundTrip`).
- The archive name `.` passes the name check, since it has no parts (`OnlyDotSlipsThrough`, which also says that it is the
  only such name).

## Model

| member | source | states |
|---|---|---|
| Checkpoints.Selection | deploy/engine/engine.py:146-149 | a list is accepted exactly if it is non-empty without repetitions, and the result has exactly its members, in engine order |
| Journals.PrefixLawful | deploy/engine/engine.py:462-472 | whatever event a process dies after, what it left behind obeys every law of the journal |
| Journals.SavesOnlyAdvance | deploy/engine/engine.py:462-472 | over all crashes and resumptions sequences grow strictly, entries cover none or all of the selection and stay, priors and identities once recorded never change |
| Journals.RecoveryStays | deploy/engine/engine.py:1188-1206 | an entry whose compensation was begun stays in recovery, over all crashes and resumptions, until a save records it as rolled back |
| Journals.PriorsWereRead | deploy/engine/engine.py:1168-1175 | the prior in every durable entry is one that the snapshot read from the provider |
| Journals.IdentitiesAreAnswered | deploy/engine/providers.py:1791-2010 | every deployment, revision and secret version that a save records anew was named by an answer of the provider before, and legacy evidence was examined before |
| Journals.DurableIsThePlans | deploy/engine/engine.py:1168-1492 | every durable checkpoint belongs to the plan; prepared and ready have no entries, and runtime success, tag failed and success have the whole selection verified |
| Journals.JobsNeverReplayed | deploy/engine/engine.py:1364-1407 | between two submissions of a job a save recorded the first one as settled: while an entry is durably pending or unknown the job is never submitted again |
| Journals.ServicesReconcileFirst | deploy/engine/engine.py:1364-1412 | a service is submitted again only after its earlier submission was settled, or after a later reading showed that the newest revision is not the candidate; and then durably pending with a published configuration and no revision known |
| Journals.MutationsAreMarked | deploy/engine/engine.py:1190-1412 | every deploy, publication and steering call happens under a durable pending marker of its component, and every rollback call under a durable rollback_pending marker with that very prior |
| Journals.MutationsAreFenced | deploy/engine/engine.py:32-34 | whenever a provider is called to change something, the durable checkpoint has a status that counts as unresolved |
| Journals.ReadyIsUntouched | deploy/engine/engine.py:1126-1166 | an attempt whose durable checkpoint is prepared or ready counts as resolved and has changed nothing yet |
| Journals.CreationIsRecorded | deploy/engine/providers.py:1531-1554 | a job is submitted only after it was decided durably, by whether the snapshot found it absent, if it is to be created; an absent one only under a durable record of its creation, which begins only after the job was read as absent and says created only after it was read as the attempt's own, each with no submission in between |
| Journals.PublishedAtMostOnce | deploy/engine/providers.py:75-304 | over all crashes and re-entries sharing one candidate, a secret version is added at most once |
| Journals.SubmissionsArePaidFor | deploy/engine/engine.py:1240-1329 | within one pending epoch the front-end is submitted at most once, plus once for each reported rejection, for a carried authorisation, and for evidence of an older run if nothing is recorded yet |
| Journals.AllSubmissionsArePaidFor | deploy/engine/engine.py:1240-1427 | over the whole attempt the submissions of the front-end are at most the openings of its entry, the rejections reported and one piece of legacy evidence: no rejection pays for two resubmissions |
| CarriedRetries.CarriedPaysExactly | deploy/engine/engine.py:1364-1387 | an epoch can have more submissions than its own rejections and evidence account for exactly if its opening save has a retry pending and no deployment recorded |
| CarriedRetries.CarriedRuns | deploy/engine/engine.py:1188-1427 | a lawful run in which a rejection arms a retry, the front-end is rolled back, and the next deploy opens its entry with the retry pending |
| CarriedRetries.OldRejectionPaysAgain | deploy/engine/engine.py:1364-1427 | going on from there the epoch has two submissions and no rejection |
| Journals.RetriesAreGranted | deploy/engine/engine.py:1369-1427 | between two submissions a save opened a new epoch or, directly after a complete empty listing, durably used up an authorisation |
| Journals.GrantsAreUsed | deploy/engine/engine.py:1380-1407 | a save that uses up an authorisation after an empty listing is followed by the submission of the front-end before anything else is saved, unless that save is reported as failed or the process dies |
| Journals.LegacySpentOnce | deploy/engine/engine.py:1272-1281 | retained evidence of an older run starts at most one retry in the whole attempt |
| Journals.HistoryCountsArmings | deploy/engine/engine.py:1260-1270 | over any stretch of an attempt the history grows by one record for each save that arms a retry, renews a pending one or takes legacy evidence, exactly if no rejection that armed a retry was already in it |
| Journals.HistoryAndRepeatsBoundSubmissions | deploy/engine/engine.py:1260-1270 | the growth of the history and the repeated rejections together bound the submissions of an epoch |
| QuotaRepeats.HistoryHoldsOneOfEach | deploy/engine/engine.py:1260-1270 | recording any rejections one after the other leaves each different one once, so the history is as long as the list exactly if no rejection occurs twice |
| QuotaRepeats.RepeatsAreFree | deploy/engine/engine.py:1260-1270 | for every k there is a lawful run with k + 1 submissions in one epoch whose history holds a single record |
| Journals.SuccessIsEarned | deploy/engine/engine.py:1468-1492 | no attempt begins with success; it is first saved directly after the commit that the tag leads to was read as the plan's source, or its creation there was reported to succeed, with every selected component verified; that a tag call on a checkpoint already saved as success sees the tag is stated by `Engines.Engine.Tag` |
| Journals.SettlingIsReadBack | deploy/engine/engine.py:1190-1206 | an entry becomes verified or rolled back only if the last thing asked about the component was a reading that matched the recorded candidate or prior |
| Engines.Engine.Save | deploy/engine/engine.py:462-472 | a save bumps the sequence; it returns only if the checkpoint is durable, and fails with it durable or not |
| Engines.Engine.PrepareConfig | deploy/engine/providers.py:75-304 | success means a durably published version, which by the law of the journal is one the provider answered; a published record yields the same version without a call, and a record in publishing or unconfirmed only raises, without a call |
| Engines.Engine.DeployFrontend | deploy/engine/providers.py:1791-1879 | unless a deployment is known, it is submitted, once and only when paid for; success means besides that every alias was found to lead to it or was moved; a quota rejection leaves everything saved and no deployment recorded |
| Engines.Engine.DeployService | deploy/engine/providers.py:1791-1879 | unless a revision is known, success means that it was submitted, once, under the pending marker and after the publication; in any case that traffic was routed to it |
| Engines.Engine.CreateDocumentImport | deploy/engine/providers.py:1531-1554 | success means that creation is durably confirmed; it is confirmed only after the job was read as the attempt's own, and the law of the journal puts the durable mark before the one submission |
| Engines.Engine.Poll | deploy/engine/providers.py:1780-1789 | it succeeds with the first reading of the very candidate that matches, fails plainly exactly after twelve that do not, and otherwise ends unknown with the first reading that raises |
| Engines.Engine.ListDeployments | deploy/engine/providers.py:1881-1932 | returns exactly if the project is known and the provider's whole listing can be walked; the number the journal sees is that of the attempt's deployments in it, and zero exactly if nothing listed names the attempt and its archive |
| Engines.Engine.Reconcile | deploy/engine/engine.py:1331-1342 | whatever an earlier submission may have left is looked up first; a service that was submitted is known afterwards or its newest revision was read as another one; every failure ends unknown and rests on an answer, an unconfirmed publication or a failed save |
| Engines.Engine.SaveQuotaRetry | deploy/engine/engine.py:1260-1270 | the history grows by at most the record, the flag and the reconciliation are replaced, all durably |
| Engines.Engine.ResumeFrontend | deploy/engine/engine.py:1369-1407 | authorised only after the authorisation was durably used up following an empty listing, and then a submission is owed; otherwise a deployment was found; a valid pending retry of an unknown deployment leads to a listing at once, and an empty one to the authorisation unless a save fails |
| Engines.Engine.Resume | deploy/engine/engine.py:1369-1407 | what an open entry's submission left is looked up and the candidate read back; a job never goes on, a service or front-end only after a reading that differed, with a known candidate, or with a granted authorisation |
| Engines.Engine.AfterRejection | deploy/engine/engine.py:1413-1427 | after a rejection the deployments are listed at once, and if none is there a retry that the next run accepts is armed durably with that rejection and the attempt ends unknown, unless the save fails |
| Engines.Engine.Attempt | deploy/engine/engine.py:1364-1440 | a component that was not pending, or whose readings show that it went on after the resumption, was deployed: submitted unless it was known or found, routed, and its aliases moved, unless an answer or a failed save made the deployment call give up; a valid retry after an empty listing is submitted in this very call unless a save fails; it succeeds only verified, fails plainly exactly after twelve readings that differ, or one that differs or fails plainly when a job or an unknown candidate is resumed, and ends unknown only with an answer that leaves the outcome open, or as a failed save does |
| Engines.Engine.Snapshot | deploy/engine/engine.py:1168-1175 | the receipts are read first; if one is unusable nothing else happens; a finished snapshot is durable and holds an untouched entry for exactly the selection, each with the prior that was read; a refused one has only read |
| Engines.Engine.BringBack | deploy/engine/engine.py:1192-1199 | the prior is read first; exactly if it is read and differs, one rollback call to that very prior follows at once; it succeeds exactly if the last reading matched and fails plainly exactly after twelve that did not or a first one that failed plainly |
| Engines.Engine.Restore | deploy/engine/engine.py:1177-1214 | unless a save fails, every given component that was started is compensated under a durable marker, is called to roll back exactly if its first reading differed from its prior, last of the plan first, and is recorded as its last reading says; no other entry changes; a complete restore leaves the attempt resolved, an incomplete one does not, and no save before the last makes it resolved |
| Engines.Engine.Deploy | deploy/engine/engine.py:1344-1466 | the saga, over the whole selection if nothing is chosen: the receipts are read first and unusable ones end it with nothing saved or called, also once more before a snapshot; all chosen components verified, each newly opened one deployed unless it was known or the call gave up; or a failure that the readings make known, after which exactly what this invocation changed was compensated, with the calls its first readings asked for and in reverse plan order; or unknown, resting on an answer that leaves the outcome open, with no rollback call; or refused; only a failed save leaves the attempt failed without compensation; the other entries keep their state; exactly compensation and the tag leave the attempt resolved, every other ending after a change leaves it unresolved, and no save before the last makes it resolved |
| Engines.Engine.DeployOne | deploy/engine/engine.py:1355-1456 | when one entry is skipped, refused, verified or left failed or unknown, the last two decided by the events before the handler's save; that one newly opened and verified was deployed unless it was known or the call gave up, and that no other entry changes |
| Engines.Engine.Tag | deploy/engine/engine.py:1468-1492 | tagging is refused without a verified runtime; the references are read, annotated tags followed, and the tag created at the source exactly if there is none; it succeeds only by a save right after the tag was seen at the plan's source in this call, and is incomplete only without that |
| Engines.Engine.TagIsAtSource | deploy/engine/engine.py:1468-1486 | the references of the tag are read, one is followed over at most four annotated tags, several are refused, and exactly without one the tag is created; it is at the source exactly if the last object read is that commit, or its creation there was reported to succeed |
| Engines.Engine.Operate | deploy/engine/engine.py:1529-1618 | every runtime entrypoint does the operation asked for, with that operation's ending, and the journal stays lawful |
| Engines.RunAttempt | deploy/engine/engine.py:1529-1618 | over every sequence of entrypoints, each dying after any event and restarted from what was durable, all events of the attempt are one lawful journal |
| Engines.RefusalIsClean | deploy/engine/engine.py:1355-1363 | a refusal in the loop leaves nothing changed exactly if every chosen entry before it is verified and not reactivated |
| Engines.RefusalLeavesChanges | deploy/engine/engine.py:1355-1363 | an incomplete restore after which a deploy takes up one component and then refuses |
| Engines.CompensationMayLeaveOpen | deploy/engine/engine.py:1206-1214 | a compensated attempt has no open entry exactly if every entry open before was among those changed |
| Engines.CompensationLeavesWorkerOpen | deploy/engine/engine.py:1355-1456 | with the worker unknown, a deploy of bff alone that fails and is compensated leaves the worker open |
| Engines.OnlyTheFirstMayBeOpen | deploy/engine/engine.py:1355-1456 | wherever a deploy fails, its compensation leaves nothing open, exactly if it takes nothing up or only the first component it takes up was open before |
| Fences.GuardFences | deploy/engine/engine.py:1126-1166 | passing the guard without force means that no other attempt is unresolved |
| Fences.BeginsExactly | deploy/engine/engine.py:1158-1164 | on a fenced log a deploy from the ready artifact of a new plan passes exactly if no attempt is unresolved; forced, it is refused outside development, and otherwise bypasses exactly if one is |
| Fences.NewestPasses | deploy/engine/engine.py:1156-1157 | the newest checkpoint, once the runtime was begun, always passes |
| Fences.GuardRefuses | deploy/engine/engine.py:1126-1166 | a copy of another plan or sequence, a copy without any checkpoint, an old ready artifact, and force outside a development deploy from ready are refused |
| Fences.Environment.Run | deploy/engine/engine.py:1126-1166 | over every sequence of entrypoints from copies of any age, with a crash in each, at most one attempt is unresolved, it owns the latest checkpoint, and nobody saves or calls a provider while another one is; what each entrypoint logs, also of a plan that is started twice, goes on lawfully from the events its copy was saved after, and only its last save may make the attempt resolved |
| Fences.Environment.Invoke | deploy/engine/engine.py:1126-1166 | a refused entrypoint adds nothing to the log, an admitted one events that go on lawfully from those of its attempt that its copy was saved after; only the last of them may make the attempt resolved |
| Fences.Environment.RunAttempts | deploy/engine/engine.py:1126-1166 | over every interleaving of the entrypoints of prepared attempts, each from any copy that was uploaded or first from its ready artifact, with a crash in each, the fence holds and the events of each attempt are one lawful journal with increasing sequences |
| Fences.PassingIsDurable | deploy/engine/engine.py:1137-1166 | where sequences increase, a copy that passes the guard is exactly what the attempt's own journal leaves durable |
| Fences.PublishedOnceInLog | deploy/engine/providers.py:75-304 | of all events of all attempts, one at most adds a secret version for a given attempt and service |
| Fences.StaleCopiesAreTwins | deploy/engine/engine.py:1156-1157 | the guard admits no copy but the newest checkpoint exactly if no other uploaded checkpoint of its plan has its sequence |
| Fences.NoStaleCopyEver | deploy/engine/engine.py:1156-1157 | at no moment of a log does a stale copy pass, exactly if different uploads of a plan have different sequences |
| Fences.ResumingKeepsLinear | deploy/engine/engine.py:1156-1157 | resuming from the newest checkpoint, or a first start, keeps the sequences increasing |
| Fences.StaleCopyPasses | deploy/engine/engine.py:1156-1157 | a fenced log on which the guard admits a copy that is not the newest checkpoint |
| Builds.BuildRecord | deploy/engine/providers.py:752-808 | verified exactly if the response identifies one build of the project, and the expected one, in its fields and its resource name |
| Builds.SubmittedOncePerEnd | deploy/engine/engine.py:683-714 | over all crashes, between two submissions of a component its record was durably terminal |
| Builds.ResubmittedOnAnAnswer | deploy/engine/engine.py:683-744 | a second submission rests on an answer after the first: it was reported as refused, or a reading that identifies its build showed it to have failed |
| Builds.UnknownIsNeverRepeated | deploy/engine/engine.py:706-728 | after a submission that failed without a refusal, or was answered by something that identifies no build, nothing is ever submitted again |
| Builds.ResolvedAfterSuccess | deploy/engine/engine.py:683-749 | an image is looked up only after a response whose fields and resource name identify the recorded build said it succeeded |
| Builds.FailureIsSeenUnlessRejected | deploy/engine/engine.py:714-744 | a submitted build was shown to fail, by a response that identifies it, before its record became terminal, exactly unless the record says that the submission was rejected |
| Builds.ReplacedBuildsFailed | deploy/engine/engine.py:683-744 | between two consecutive submissions the first build was so shown to fail exactly if its record did not end in that rejection |
| Builds.RejectionsMayNotBeHonest | deploy/engine/engine.py:714-721 | a lawful run with two accepted builds neither of which was seen to fail |
| Builds.Preparer.Poll | deploy/engine/providers.py:934-999 | at most 120 readings, of which the last decides: success, failure and an unknown status exactly if it identifies the build and says so or says nothing usable, a mismatch exactly if it identifies another one, which alone revokes the verification; a build seen running is given up only after 120 readings or ten minutes; only status and verification of the record change |
| Builds.Preparer.PrepareContainer | deploy/engine/engine.py:683-749 | at most one submission and none while a record is open; without a record, or after a terminal one, a submission is asked for unless the intent cannot be saved; an open record without a proven identity is neither polled nor replaced, a finished one is only looked up; an image means a durable verified success, and every other end is what an answer to the submission or the last reading says, a failed save or an image that is not usable |
| Builds.ChangedPlan | deploy/engine/engine.py:858-892 | a changed plan passes exactly if every retained build of a selected component is over without an image or has an applicable receipt; a promotion exactly if that holds of the front-end; otherwise the first other one is named |
| Builds.PromotionsPass | deploy/engine/engine.py:862-867 | a production promotion passes whatever container builds are open, since it uses none of them |
| Builds.RunningBuildHoldsUp | deploy/engine/engine.py:868-892 | a single open build holds up a changed plan exactly if its component is selected and has no receipt |
| Provisioning.Provisioner.BuildImage | deploy/provision/exportjob_dev.py:274-317 | at most one submission per evidence file over all runs, exactly one unless a save fails before, none once the file records a build; a recorded build is refused unread exactly if it lacks an identity, was given up, is of another source or tag, or once read back differently; otherwise the last reading and the registry decide, and only a failed save or a reading of no build at all ends it otherwise; identity, source and tag of a record never change |
| Provisioning.Provisioner.VerifyBuild | deploy/provision/exportjob_dev.py:319-372 | the last reading decides: another build, a failure, too long after ten minutes, or a success with one digest that the registry confirms, which alone yields an image; at most 121 readings, one if the build was verified before |
| Provisioning.Provisioner.Register | deploy/provision/exportjob_dev.py:342-359 | the digest is recorded and returned exactly if it is the only one and the registry has the same, unless a save fails; what the registry says otherwise decides the error |
| Provisioning.Provisioner.Runs | deploy/provision/exportjob_dev.py:274-372 | over any runs on one file there is one submission, and after a run that found the submission unknown, the build over, another one, or its digest missing or different, no later run returns an image |
| Iam.AddsOneGrant | deploy/provision/exportjob_dev.py:609-630 | the written policy makes exactly one more grant, whatever bindings are split or repeated; etag and other fields stay, and the version is at least three exactly as a condition needs it |
| Iam.RemovesOneOccurrence | deploy/provision/exportjob_dev.py:767-777 | the written policy has one occurrence of the desired grant less and every other grant as often as before |
| Iam.RemovesAtMostOneGrant | deploy/provision/exportjob_dev.py:767-777 | no other grant is lost, and the desired one is gone exactly if it occurred once |
| Iam.RemoveUndoesAdd | deploy/provision/exportjob_dev.py:600-795 | removing after adding gives back the same grants, and the same bindings exactly unless an empty binding was filled |
| Iam.UntouchedGrantsStay | deploy/provision/exportjob_dev.py:600-795 | over every interleaving with other writers, a grant that no other writer touches and no own edit is about is made at the end exactly if it was at the start |
| Iam.Preserves | deploy/provision/exportjob_dev.py:677-685 | the comparison of merged bindings accepts exactly if every grant of the first policy is made by the second |
| Iam.Server.Set | deploy/provision/exportjob_dev.py:632-643 | a conditional write replaces exactly the policy that was read, or nothing |
| Iam.Evidence.AddMember | deploy/provision/exportjob_dev.py:600-669 | the outcome is what the answers lead to: a policy that has the grant, a conflicting condition or no etag decides at once, any other is written to once, a conflict leads to another reading, five times in all, and an accepted write to one more reading that decides; only a failed save ends it otherwise. Each own write is of a policy durably recorded before it and adds only the desired grant; a normal return names a policy in force during the call that makes the grant and, after an own write, keeps what that write replaced; of the readings it recorded, only the last can have made the grant |
| Iam.ByThisRunIsRight | deploy/provision/exportjob_dev.py:600-669 | of an entry as a successful call leaves it: the flag that this run added the grant is set only after an own write was accepted; that it is not set means no own write was accepted, in whatever way the policy went through the recorded readings, exactly if one policy was read, that is, the first one already made the grant |
| Iam.Evidence.RemoveMember | deploy/provision/exportjob_dev.py:748-795 | the same for removal: the outcome is what the answers lead to, and a normal return means the first matching binding lacks the member, or a reading after an own write lacks the grant and keeps every other one |
| Iam.AbsenceMayBeOverlooked | deploy/provision/exportjob_dev.py:754-764 | bindings that still make the grant although the cleanup reports it absent |
| Iam.ConflictsExactly | deploy/provision/exportjob_dev.py:621-624 | the edit is refused as conflicting exactly if the member holds the role under another condition |
| Iam.AbsenceIsRight | deploy/provision/exportjob_dev.py:754-764 | for a role and condition, every member reported absent is absent, exactly if whoever a later binding names is named by the first one or holds the role under another condition |
| SpanCycles.CycleNodes | scripts/trace_lookup.py:762-777 | exactly the nodes that reach themselves in one or more parent steps, for every parent map and key order, with each node put on a path exactly once |
| SpanTrees.SafeIdsAreCanonical | scripts/trace_lookup.py:244-251 | normalising an accepted id again changes nothing |
| SpanTrees.AcceptsExactlyIds | scripts/trace_lookup.py:244-251 | a value is accepted exactly if it is sixteen hexadecimal or at most twenty decimal digits, not all zero, and the id says the same up to letter case |
| SpanTrees.IdsAgreeExactly | scripts/trace_lookup.py:244-251 | two accepted texts have the same id exactly if they are equal, or both are sixteen hexadecimal digits that agree up to letter case |
| SpanTrees.Collect | scripts/trace_lookup.py:789-831 | the first span of each safe id is kept; kept, duplicate, invalid and non-object spans add up to the input |
| SpanTrees.GraphIsAcyclic | scripts/trace_lookup.py:833-847 | the child edges kept form no cycle |
| SpanTrees.CycleMembersAreRoots | scripts/trace_lookup.py:835-853 | a node on a cycle is a root, and a node hangs below its parent exactly if that parent is given, valid, known and on no cycle with it |
| SpanTrees.NodesAreRead | scripts/trace_lookup.py:789-831 | a node is kept exactly for each id that some span has, with what its first span says |
| SpanTrees.ParentsAreFollowed | scripts/trace_lookup.py:835-847 | a node is put below another one exactly if the first span with its id names that one as parent, in whatever letter case, and it is on no cycle |
| SpanTrees.StatusMeans | scripts/trace_lookup.py:835-847 | what each parent status says of the parent id, the other nodes and the cycles |
| SpanForests.EveryNodeHasLevel | scripts/trace_lookup.py:849-880 | in an acyclic graph every node is reached from a root |
| SpanForests.Expand | scripts/trace_lookup.py:869-880 | the stack loop ends with every shown node expanded or cut, no node shown twice, and the omitted edges counted |
| SpanTrees.BuildSpanTree | scripts/trace_lookup.py:780-904 | the result is a forest over exactly the ids that are hexadecimal or decimal and not zero, the first span of each kept; a node hangs below the node its parent id names, in whatever letter case, unless it is on a cycle; children are sorted, the roots are exactly the nodes without a followed parent |
| SpanTrees.ShowsUpToTheLimit | scripts/trace_lookup.py:857-880 | exactly the nodes at depth 128 or less are shown, each once, and the omitted edges number exactly the nodes at depth 129 |
| SpanTrees.ShowsEverything | scripts/trace_lookup.py:857-880 | nothing is omitted exactly if every accepted span is shown |
| Paginations.EntrySearch | scripts/trace_lookup.py:619-683 | complete exactly if the chain ends within the page limit with entries that fit; the entries are the matching ones of the pages read, in order; no token is asked for twice; every early stop is told apart |
| Paginations.EndingChainsAreDistinct | scripts/trace_lookup.py:636-645 | a page chain that ends never comes back to a token, so the cycle check rejects no complete chain |
| Paginations.DeploymentMatches | deploy/engine/providers.py:1881-1932 | returns exactly if the listing has whole pages, strictly decreasing cursors, distinct identities and an end within 1000 pages, and then exactly the wanted deployments in order |
| Paginations.CursorsDecrease | deploy/engine/providers.py:1921-1931 | the cursors asked for decrease strictly, so none repeats |
| Gzip.DeterministicGzip | deploy/engine/gat4_ci_artifact.py:71-79 | the loop writes header, stored blocks and trailer of section 2.3 of RFC 1952, with exactly one final block, last, for non-empty data |
| Gzip.GzipRoundTrip | deploy/engine/gat4_ci_artifact.py:71-79 | a reader of stored blocks (section 3.2.4 of RFC 1951) gives back the data exactly if there is any |
| Gzip.GzipInjective | deploy/engine/gat4_ci_artifact.py:71-79 | different data are written differently |
| Gzip.GzipLength | deploy/engine/gat4_ci_artifact.py:71-79 | the output has n + 5 * ceil(n / 65535) + 18 bytes |
| Base64s.AcceptsExactlyTheSpellings | deploy/engine/gat4_ci_artifact.py:384-407 | a value is accepted with result b exactly if b has the required size, is non-empty and the value is one of its four canonical spellings |
| Base64s.AlphabetsDiffer | deploy/engine/gat4_ci_artifact.py:384-407 | the alphabets give different spellings exactly if a value 62 or 63 occurs |
| Base64s.PaddingDiffers | deploy/engine/gat4_ci_artifact.py:384-407 | padding makes a difference exactly if the size is no multiple of three |
| Truncations.ResultFits | deploy/engine/support.py:85-97 | the result never has more bytes than the limit, and is the text itself, unflagged, exactly if that fits |
| Truncations.CutKeepsMost | deploy/engine/support.py:85-97 | a cut text is the longest fitting prefix, the marker and the longest fitting suffix of whole characters, not overlapping |
| Truncations.OnlyMarker | deploy/engine/support.py:85-91 | when the marker does not fit, exactly as much of it as fits is left |
| TreeDigests.OnlyDotSlipsThrough | deploy/engine/gat4_ci_artifact.py:117-120 | taken apart and put together as pathlib does, a name passes the five tests exactly if it is the single dot or has no backslash and no empty, current or parent component |
| TreeDigests.ArchiveStream | deploy/engine/gat4_ci_artifact.py:160-172 | succeeds exactly for safe names and sizes of eight bytes, says which of the two is wrong otherwise, and feeds the records in name order whatever order the files are listed in |
| TreeDigests.DirectoryStream | scripts/gat4-local/artifact.py:46-65 | the directory walk refuses exactly symbolic links and unrepresentable sizes and feeds the records of the regular files in name order |
| TreeDigests.StreamReads | deploy/engine/gat4_ci_artifact.py:160-172 | a reader that knows only the format gets back every name, permission and body |
| TreeDigests.StreamsDetermineTrees | deploy/engine/gat4_ci_artifact.py:160-172 | equal bytes exactly for equal names, permission bits and bodies |
| TreeDigests.TwinsAgree | scripts/gat4-local/artifact.py:46-65 | archive and directory feed equal bytes exactly if every file on disk has 0755 where its archive header has an execute bit, and 0644 where it has none |
| Orderings.SortIgnoresOrder | deploy/engine/gat4_ci_artifact.py:162 | two listings of the same names, in any order and with any repetitions, are sorted alike |
| BraceScanners.FindEnd | apps/bff/scripts/postprocess_swagger.py:39-64 | the loop is the character automaton from the opening brace on |
| BraceScanners.StopsAtFirstBalance | apps/bff/scripts/postprocess_swagger.py:39-64 | it stops exactly after the first closing brace outside strings that balances those before it |
| BraceScanners.ScanFindsObjectEnd | apps/bff/scripts/postprocess_swagger.py:39-64 | for every JSON object (RFC 8259), however printed, followed by any text, it stops exactly after the object |

## Left out

- Preparation of front-end, i18n and pipeline artifacts, admission, source identities and receipts: their checks are arbitrary yes or no answers here, read again wherever the code reads them; what follows from either answer is stated.
- Reading and validating provider state: `observe`, `snapshot`, the document import policy and the alias and traffic calls give arbitrary answers, so nothing is proved about what makes a reading match.
- Legacy shapes of auth configuration records, recorded resource identities and project numbers: `Engines.Engine.PrepareConfig` has one readable-or-not answer for them.
- Build receipts of a checkpoint of the same plan, and the field checks of retained checkpoints and of the latest checkpoint: long lists of shape tests.
- Fences.Environment.RunAttempts: a second start of a plan from its ready artifact is not among its entrypoints, because sequences repeat then (`StaleCopyPasses`); `Fences.Environment.Run` includes it and says that each of the two runs is lawful by itself.
- The `force` bypass beyond the guard itself: `Fences.Environment.Run` starts entrypoints without it.
- `poll_outcome`, reported project and location, diagnostics, exit codes and timestamps of build records: annotations that decide nothing.
- Exceptions the code does not catch (an unexpected type, a full disk) are crashes.
- Paginations.EntrySearch: a page chain is a function of the token, which is no restriction because no token is asked for twice.
- Iam.Evidence.AddMember: one edit with its evidence; the list of the other targets' evidence, which it appends to, is not carried along. A binding without a role reads as one with an empty role.
- Resource creation, cleanup bookkeeping and role definitions of the provisioning script: long but without interleaving.
- Attributes copied from spans to nodes, hints from logs, attempt ids and the counters of issues and outcomes; the flag that the tree was cut, which is set exactly with the first omitted edge.
- `collect_trace_ids`, log queries and the report of the trace lookup: they use the results above.
- `_validate_source_provenance_hashes`, `_list_run_artifacts` and the manifest checks around the hash decoder: walks over validated fields that add no case of their own.
- The pattern that recognises a quota rejection: a cause carries a yes or no answer to it.
- CRC-32 and SHA-256 are parameters or left uninterpreted: the results are about the bytes fed to them.
- Redaction in error messages, and the limit by characters: only the byte-limited end is modelled.
- The patches around the brace scanner, and the regular expression that finds its start.
- Source archives are maps of members; tar parsing, size limits and duplicate members are not modelled.

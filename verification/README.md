# Bookkeeping protocols of the authentication server

A Dafny model of the parts of the server that keep records several parties write to, and proofs of
what those records promise: the bulk user import and its queue, the tamper-evident audit log,
administrative grants, roles and permissions, account lockout, and the server-address allow-list.
Database tables are finite maps and sets, a partial unique index is the map it is, and each SQL
statement or transaction is one step; what a writer checks before its transaction opens is a step of
its own. `dafny verify dfyconfig.toml` checks everything.

| component | files |
|---|---|
| bulk import | `Directory`, `UserImport`, `ImportAgreement`, `ImportOutcomes`, `ImportQueue`, `ImportDrain`, `ImportFailures`, `ImportProtocol`, `ImportRuns`, `ImportRetry`, `ImportVerdicts`, `ImportReplay`, `ImportService` |
| audit log | `AuditChain`, `AuditVerify`, `AuditWriter`, `AuditRuns`, `AuditPipeline`, `AuditLogger`, `AuditReplay` |
| administrative grants | `AdminGrants`, `AdminReach`, `TenantAdmins`, `TenantAdminRuns`, `TenantAdminEffects`, `TenantAdminService` |
| roles and permissions | `RoleStore`, `RoleInvariants`, `RoleWriters`, `RoleEffects`, `RoleRuns`, `RoleService` |
| account lockout | `Lockout`, `LockoutRuns` |
| server addresses | `ServerIp` |

In each component a pure function or a step relation says what an operation does, lemmas prove what
holds over every input or every run, and a class or method with loops and in-place updates is proved
to do what the function says. Hashing, string folding, password parsing, clocks and the failures of
storage are parameters: a result that does not mention them holds whatever they do.

## What the code does not quite promise

Where a promise of the documentation fails on some inputs, the code is kept as it is, an input that
shows the failure is given, and the exact condition is proved.

- The dry run and the commit agree on every row if and only if no row to be created carries an
  identity already linked or claimed by an earlier row (`ImportAgreement.DryRunAgreesIff`,
  `ImportAgreement.DryRunCanDisagree`): the table of identities is unique on the provider's subject
  as well (migrations/00046_create_user_identities.sql:27-28), which only the commit finds out.
- A completed job can have counted fewer rows than it settled although no worker stopped or lost its
  lease between its two writes: the first of them may itself be made without the lease
  (`ImportRuns.StalledRowGoesUncounted`). The count is exact if and only if every settled row was
  refused at enqueueing or had a progress write that matched the lease (`ImportRuns.CountIsExactIff`).
- Assigning or adding a role, creating a user with one and importing a row check the role before
  their transaction and do not read it again. A role deleted in between is granted all the same and
  can become its holder's primary (`RoleRuns.LateCommitBreaks`). Throughout a run nobody holds a
  deleted role if and only if every such commit finds its role still live
  (`RoleRuns.LiveThroughoutIff`); scopes, reached permissions and the holding of primaries do not
  depend on it (`RoleRuns.EveryRun`).
- Removing an administrator leaves a live user without a primary role if and only if nothing was
  recorded to restore and a live ordinary role is held (`RoleWriters.RestorePrimaryIff`).
- Deleting a role gives a primary to users it has nothing to do with, such as one left without by
  such a removal (`RoleRuns.UnrelatedGetsPrimary`). A user whose primary it was not notices nothing if
  and only if of another tenant, with a primary, or without another live role
  (`RoleWriters.UnrelatedKeptIff`).
- An invitation names an address, so the rule against changing one's own grant is not asked: a
  platform administrator changes its own by inviting its own address
  (`TenantAdminRuns.SelfInvitePromotes`). An inviter's grant stays as it is if and only if the address
  is another's or the invitation repeats it (`TenantAdminRuns.OwnGrantKeptIff`).
- A written audit row verifies itself if, and with an injective hash only if, its status code fits
  sixteen bits (`AuditWriter.RowVerifiesIff`); the delimited text it hashes is injective only
  without the delimiter inside a field (`AuditChain.EncodeInjective`, `AuditChain.BarsCollide`).
- An insert can store its rows and still report failure, when its acknowledgement is lost to the time
  limit. The batch is then stored again by the retry, or counted as dropped, or both
  (`AuditPipeline.DoubleStore`). The table agrees with what the worker counts, keeps the order of
  acceptance and is what the sinks were shown if and only if no insert of the run did so
  (`AuditPipeline.ExactIffReported`); what holds in every run is `AuditPipeline.EveryRun`.
- Closing the logger drains the queue only if no call to log is under way
  (`AuditPipeline.CloseDrains`, `AuditPipeline.StragglerIsLeftBehind`).
- Both models of administrative reach resolve a pair alike if and only if it is not an activated
  co-owner of no application (`AdminReach.ScopesAgreeIff`), which no run leaves behind
  (`TenantAdminRuns.EveryRun`).
- A stored address range is stored again as itself if and only if masking did not reach the all-zero
  address (`ServerIp.RenormalizesIff`, `ServerIp.ZeroNetworkIsNotReaccepted`).

## Model

| member | source | states |
|---|---|---|
| UserImport.ValidateIdentities | internal/admin/user_import.go:554-569 | a row's identities pass exactly when every provider and subject is present and no provider repeats |
| ImportAgreement.RunShape | internal/admin/user_import.go:254-389 | one verdict per row, in order, under its own index; which rows are refused, and why, depends on the file alone |
| ImportAgreement.TalliesSum | internal/admin/user_import.go:254-497 | the four counts of a report add up to its rows |
| ImportAgreement.InsertIdentitiesIff | internal/admin/user_import.go:673-749 | validated identities are refused by the database exactly when one of them is already linked |
| ImportAgreement.InsertedIff | internal/admin/user_import.go:673-749 | a user with a new address is inserted exactly when no provider repeats and no identity of it is linked already |
| ImportAgreement.CommitRowFrame | internal/admin/user_import.go:390-485 | writing one row touches nobody but the user with its address and keeps the indexes consistent |
| ImportAgreement.DryRunAgreesIff | internal/admin/user_import.go:219-487 | dry run and commit return the same verdict for every row if and only if no identity of a row to be created is taken; the dry run writes nothing |
| ImportAgreement.DryRunCanDisagree | migrations/00046_create_user_identities.sql:27-28 | a file carrying another user's identity, for which the dry run promises a create and the commit skips |
| ImportAgreement.ReapplyIsHarmless | internal/admin/user_import_worker.go:536-629 | applying a row that was already applied changes no name, role or identity and creates nobody |
| ImportAgreement.SecondCommit | internal/admin/user_import.go:390-485 | committing a document again creates nobody, refuses the same rows for the same reasons, skips or updates what it created before, and leaves the directory as it was |
| ImportOutcomes.FindRoleIff | internal/admin/user_import_worker.go:695-712 | a role name resolves exactly when it is among the assignable ones, and then to a role of that name |
| ImportOutcomes.RowAcceptedIff | internal/admin/user_import.go:280-388 | a row with an address new to the file is accepted exactly when it carries at most one credential and that usable or else another way in, identities that can be linked, and a role that is available or none |
| ImportOutcomes.RefusalIsTrue | internal/admin/user_import.go:280-388 | whichever reason a refused row is given is true of that row |
| ImportOutcomes.RepeatIff | internal/admin/user_import.go:256-279 | a row is a repeat exactly when an earlier row has its normalised address, and the report names the first such row, refused or not |
| ImportOutcomes.PassedIff | internal/admin/user_import.go:256-388 | a row of a document passes exactly when it has an address, is the first with it, and its credentials, identities and role will do; it goes under its normalised address with the role it names, else the default |
| ImportOutcomes.OutcomeIff | internal/admin/user_import.go:390-485 | a row that passed is updated or skipped exactly when its address is taken, as the caller chose, and created when it is not, unless an identity is in the way |
| ImportOutcomes.UpdateReport | internal/admin/user_import.go:401-440 | an update reports the name of the old and of the new primary role exactly when they differ |
| ImportOutcomes.CreatedAreThere | internal/admin/user_import.go:673-749 | whoever a commit reports as created is in the directory when it is over exactly as the file has them, with an uploaded digest kept as it is, a plaintext password only as its hash and otherwise no credential, with the resolved role and no other and every identity linked to them, whatever later rows did |
| ImportOutcomes.UpdatedAreAmended | internal/admin/user_import.go:802-847 | whoever it reports as updated existed before and differs only by the non-empty names and, where one is named, the role, which replaces every role held in the tenant |
| ImportQueue.NewJobIsFresh | internal/admin/user_import_job.go:103-187 | an enqueued job has the scope and mode asked for and one row a user, the refused ones settled for their reasons and counted at once, and stores no credential in a refused row and no plaintext in any payload |
| ImportQueue.ReadBackRestores | internal/admin/user_import_worker.go:346-353 | what a worker reads of a waiting row is the uploaded user under its normalised address |
| ImportQueue.ClaimedIs | internal/admin/user_import_worker.go:257-297 | a claimed job is claimable again exactly when the lease, stamped again by each renewal, is more than 120 seconds old |
| ImportQueue.HandedBackIs | internal/admin/user_import_worker.go:727-778 | releasing makes a job claimable at once, completing and failing end it for good, each for the holder of its lease alone and leaving rows and counts as they are |
| ImportQueue.CancelledIs | internal/admin/user_import_job.go:355-382 | cancelling stops exactly a job that has not ended, and no worker finds a row of it to apply |
| ImportQueue.CountedIs | internal/admin/user_import_worker.go:454-477 | progress is one row of one outcome, for the holder of the lease alone |
| ImportQueue.RecordedIs | internal/admin/user_import_worker.go:441-452 | a verdict is stored with its reason in the one row, and its credentials go with it |
| ImportQueue.FailedRowIs | internal/admin/user_import_worker.go:520-534 | a failed application costs the row one attempt, and it is read back as it was |
| ImportQueue.ClearedIs | internal/admin/user_import_worker.go:746-766 | clearing a stopped job leaves no credential in a waiting row, and settled rows as they are |
| ImportFailures.NobodyGivenUp | internal/admin/user_import_worker.go:395-440 | a drain in which nobody is given up is the drain without failures |
| ImportDrain.ApplyIsCommit | internal/admin/user_import_worker.go:536-630 | the worker treats a screened row as the synchronous commit does |
| ImportDrain.AppliedIs | internal/admin/user_import_worker.go:536-630 | a row is rejected exactly when it names a role that is no longer available, and is otherwise committed under its address with the role it names or the default |
| ImportDrain.RunUpToStamps | internal/admin/user_import.go:390-485 | the instants at which rows are written decide nothing but their own stamps |
| ImportDrain.QueueThenDrainIsCommit | internal/admin/user_import_worker.go:211-240 | with no other writer and no storage failure, enqueueing and draining a document gives the directory, the report and the four counts of committing it |
| ImportProtocol.StepKeepsInv | internal/admin/user_import_worker.go:142-241 | every statement of any worker, operator or sweeper keeps: counts add up and cover settled rows only, a finishing or counting worker that still holds the lease is right about its job, settled rows hold no credential |
| ImportRuns.EveryRun | internal/admin/user_import_worker.go:142-507 | in every interleaving a completed job has no waiting row, processed is the sum of the four counts and at most the settled rows, and no settled row holds a password or digest |
| ImportRuns.NoRowCountedTwice | internal/admin/user_import_worker.go:454-477 | in every interleaving no row is counted twice |
| ImportRuns.StatusOnlyAdvances | internal/admin/user_import_worker.go:727-778 | completed and failed jobs keep their status for good, and a cancelled job can only become failed |
| ImportRuns.StatusStep | internal/admin/user_import_worker.go:265-289 | no finished job, cancelled ones included, is claimed |
| ImportRuns.LeavesWhenFinished | internal/admin/user_import_worker.go:646-672 | a job that is gone had ended while it was there |
| ImportRuns.AtMostOneAfterStop | internal/admin/user_import_job.go:355-382 | after a job stopped, a worker applies at most one more of its rows, and only if it was past the row check |
| ImportRuns.LeaseProtects | internal/admin/user_import_worker.go:174-190 | from a claim or a renewal nobody else takes the job for the length of the lease, whatever the others do, unless its holder gives it up |
| ImportRuns.ExpiredLeaseIsClaimable | internal/admin/user_import_worker.go:265-289 | a running job whose lease has run out can be claimed by any idle worker, which then holds it |
| ImportRuns.CountIsExactIff | internal/admin/user_import_worker.go:454-507 | processed equals the settled rows exactly when every settled row was refused at enqueueing or counted under the lease |
| ImportRuns.StalledRowGoesUncounted | internal/admin/user_import_worker.go:454-477 | a run that completes a job with its one settled row uncounted |
| ImportRetry.SerialStepKeepsInv | internal/admin/user_import_worker.go:395-446 | with one worker at a time, what it remembers of its row is what the table says, and no waiting row has spent its attempts |
| ImportRetry.BudgetStep | internal/admin/user_import_worker.go:395-446 | every application of a row takes one from five less its attempts, and nothing gives any back |
| ImportRetry.EveryRowAtMostFive | internal/admin/user_import_worker.go:84 | whatever storage failures occur, no row is applied more than five times |
| ImportRetry.JobAtMostFivePerRow | internal/admin/user_import_worker.go:395-446 | so n rows cost at most 5n applications |
| ImportVerdicts.VerdictsAreEarned | internal/admin/user_import_worker.go:395-446 | in every interleaving a row is given up only as rejected and only once five of its applications have failed, and any other verdict it carries was passed on it by the dry run or an application |
| ImportVerdicts.GivenUpAfterFive | internal/admin/user_import_worker.go:418-440 | with one worker at a time a row that is given up was applied exactly five times, and each of them failed |
| ImportReplay.DrainIsRun | internal/admin/user_import_worker.go:211-239 | an undisturbed drain is a run of one worker's statements |
| ImportReplay.CommitIsRun | internal/admin/user_import_job.go:81-194 | enqueueing, claiming, draining and completing a document is a run from the empty queue, and ends in the report and counts of committing it |
| ImportReplay.FailIsRun | internal/admin/user_import_worker.go:198-241 | a worker that cannot read its rows leaves the job failed for good, unlocked, and with no credential in a waiting row |
| ImportReplay.ReleaseIsRun | internal/admin/user_import_worker.go:202-210 | a worker that shuts down leaves the job pending as it was, and any idle worker can claim it at once |
| ImportReplay.CancelIsRun | internal/admin/user_import_job.go:355-382 | cancelling a job under way leaves it cancelled, its credentials erased, and none of its rows to be applied |
| ImportService.ImportService.RunImport | internal/admin/user_import.go:233-488 | the loop computes the run, its four counters are the tallies of its rows and add up to the total; too large a document changes nothing |
| ImportService.ImportService.EnqueueImport | internal/admin/user_import_job.go:81-194 | the stored job is the fresh job of the dry run's verdicts, and the directory is untouched |
| ImportService.ImportService.CancelImportJob | internal/admin/user_import_job.go:355-382 | only a pending or running job of the scope is cancelled, and its waiting rows keep no credential |
| ImportService.ImportService.ClaimImportJob | internal/admin/user_import_worker.go:257-297 | the oldest claimable job is claimed, or there is none |
| ImportService.ImportService.ProcessRow | internal/admin/user_import_worker.go:365-478 | one row applied, recorded and counted |
| ImportService.ImportService.DrainRows | internal/admin/user_import_worker.go:211-239 | reading the next waiting row until there is none drains the rows in order |
| ImportService.ImportService.DrainJob | internal/admin/user_import_worker.go:142-241 | a claimed job is drained and completed |
| ImportService.ImportService.DrainThroughFailures | internal/admin/user_import_worker.go:395-446 | under any pattern of failures a lone worker completes the job; exactly the rows whose attempts come to five by failures are given up, every other waiting row is applied once after fewer failures, as in a drain of the same rows without them; when nobody is given up directory, report and counts are those of the undisturbed drain, but for the attempts |
| AuditChain.EncodeInjective | internal/audit/writer.go:306-347 | the hashed text tells apart any two rows none of whose own text fields contains the separator, whatever their prev_hash |
| AuditChain.DecimalInjective | internal/audit/writer.go:322-347 | no two integers print alike |
| AuditChain.BarsCollide | internal/audit/writer.go:329-332 | a separator inside a field moves into its neighbour without changing the hashed text |
| AuditVerify.VerifyChain | internal/audit/verify.go:35-119 | intact exactly when the latest rows with a hash, as many as the limit asked for from 1 to 100000 and 10000 otherwise, all verify and link; if not, the first of them that does not, and which of the two checks it failed, linkage first |
| AuditVerify.ChainedIsExact | internal/audit/verify.go:45-60 | what is verified are the rows with a hash, each as often as it is stored |
| AuditVerify.ChainedKeepsOrder | internal/audit/verify.go:45-60 | and in the order they are stored |
| AuditVerify.WindowIsLatest | internal/audit/verify.go:36-51 | of these the latest, as many as the limit or all there are |
| AuditVerify.SameEndSameHistory | internal/audit/verify.go:61-111 | with an injective hash two verified windows with the same last hash agree on every hashed field, backwards over the shorter |
| AuditVerify.EvidenceKeepsVerdict | internal/audit/writer.go:306-311 | changing columns the hash does not cover changes no check on any row |
| AuditVerify.ErasureKeepsVerdict | migrations/00056_audit_logs_immutability_maintenance.sql:63-95 | erasing a user neither breaks nor repairs a chain |
| AuditVerify.ErasureErases | migrations/00056_audit_logs_immutability_maintenance.sql:63-95 | an erased user is in no row any more, nor is what was theirs, and every other row is as it was |
| AuditWriter.ChainBatch | internal/audit/writer.go:225-271 | the loop turns a batch into rows each built on the running hash, and leaves the hash of the last |
| AuditWriter.RowVerifiesIff | internal/audit/writer.go:237-261 | a written row verifies its own content if, and with an injective hash only if, its status code fits the column |
| AuditWriter.ReadBackSkeleton | internal/audit/writer.go:225-270 | reading a written row back gives every hashed field of the event, but for the status code cut to sixteen bits, and its unhashed columns as they were |
| AuditWriter.NarrowedToSixteenBits | internal/audit/writer.go:237-261 | the column keeps a status code modulo 65536, as a signed number |
| AuditWriter.BackfilledTakesUsersApp | internal/audit/writer.go:244-248 | an event that names no application takes its user's, and nothing else of it changes |
| AuditWriter.RowsChain | internal/audit/writer.go:252-261 | a batch starts from the hash it was given, links row to row and ends in the new running hash |
| AuditWriter.HashesNeverRepeat | internal/audit/writer.go:257-261 | a writer started from genesis never meets one of its own hashes again |
| AuditWriter.LostBatchBreaksLink | internal/audit/writer.go:181-196 | so the first row after a lost batch never links to the last row stored |
| AuditRuns.StepKeepsInv | internal/audit/writer.go:215-304 | every statement of the writer, purge, erasure or restart keeps each stored row true to its content and each break explained |
| AuditRuns.EveryRun | internal/audit/writer.go:181-304 | in every run a row fails to link only if it is the first of a batch written after a lost insert or after a start whose seed read failed, and every row whose status fits verifies itself |
| AuditRuns.UntroubledRunsVerify | internal/audit/verify.go:35-119 | without such failures every window verifies intact, for every limit, through restarts, purges and erasures |
| AuditPipeline.StepKeepsInv | internal/audit/writer.go:137-209 | accepted events are flushed, in the batch or queued, in the order of acceptance, and the queue and batch keep their bounds |
| AuditPipeline.EveryRun | internal/audit/writer.go:137-209 | in every run each event given to Log is in exactly one of refused, on its way, queued, in the batch, written, dropped; what is written or dropped keeps its order; what is written was stored, nothing was stored but what was written, dropped or is being retried, nor more than twice; the table gets batches in order, some twice in a row, and each sink the acknowledged ones |
| AuditPipeline.RefusedIff | internal/audit/logger.go:686-699 | an event is refused exactly when Log finds the pipeline closed or the queue full |
| AuditPipeline.DroppedIff | internal/audit/writer.go:181-196 | a batch is dropped exactly when its second attempt is reported failed too, and written exactly when an attempt is reported successful |
| AuditPipeline.ExactIffReported | internal/audit/writer.go:181-209 | with the stored events in place of the written ones this partition, their order, and sinks having exactly the stored batches hold if and only if no insert stored its rows and reported failure |
| AuditPipeline.DoubleStore | internal/audit/writer.go:181-196 | a run that stores an event twice, counts it as dropped and shows it to no sink |
| AuditPipeline.CloseDrains | internal/audit/writer.go:366-376 | closed with no Log under way, once the worker is done the queue and the batch are empty |
| AuditPipeline.OnlyStragglersRemain | internal/audit/writer.go:157-173 | after the worker ended, only calls under way at its last look can have left an event behind |
| AuditPipeline.StragglerIsLeftBehind | internal/audit/logger.go:686-699 | a run in which such an event stays in the queue for good |
| AuditPipeline.DrainIsBounded | internal/audit/writer.go:157-173 | closed with no Log under way, the worker takes boundedly many more steps whatever the database does |
| AuditPipeline.DrainNeverSticks | internal/audit/writer.go:144-175 | until it is done there is always one it can take |
| AuditLogger.AttemptIsRun | internal/audit/writer.go:215-275 | an undisturbed insert attempt is a run of the writer's steps |
| AuditLogger.AttemptStores | internal/audit/writer.go:215-275 | an insert attempt stores a row for each event of its batch, in order and under its own or else its user's application, or none at all; in either case the running hash has moved on to the last row's |
| AuditLogger.Logger.Log | internal/audit/logger.go:686-699 | accepted in order when open and not full, otherwise refused and counted |
| AuditLogger.Logger.SeedChain | internal/audit/writer.go:287-304 | an unseeded writer takes up the last stored hash when it can read one, and never asks twice |
| AuditLogger.Logger.CopyBatch | internal/audit/writer.go:215-275 | the running hash advances whether or not the rows are stored, and they may be stored although the insert reports failure |
| AuditLogger.Logger.Flush | internal/audit/writer.go:181-209 | one retry, then the batch is counted as dropped; only an acknowledged batch reaches the sinks, and every sink gets it |
| AuditLogger.Logger.Drain | internal/audit/writer.go:157-173 | everything held is flushed in order in batches within the size, and written plus dropped accounts for all of it |
| AuditLogger.Logger.Close | internal/audit/writer.go:366-376 | nothing is left in the queue or the batch |
| AuditReplay.FlushIsRun | internal/audit/writer.go:181-209 | an undisturbed flush, retry included, is a run of the writer's steps |
| AuditReplay.DrainedTableIsExplained | internal/audit/writer.go:157-173 | in the table a drain leaves, whatever its attempts met, a row fails to link only for the reasons every run allows |
| AuditReplay.DrainedChainVerifies | internal/audit/verify.go:35-119 | and if no rows were lost and no read failed the chain a drain leaves verifies for every limit, doubly stored batches included |
| AuditReplay.PurgeHealsTheWriter | internal/audit/maintenance.go:16-27 | what a purge leaves of an intact chain verifies, and so it does with the next batch stored, even where the writer's own hash had run ahead of the table |
| AdminGrants.MirrorAdminGrants | internal/admin/admin_grants_mirror.go:49-164 | the sequence of retire, insert and synchronise statements makes one pair's grants the derived ones, keeping instants where activation agrees |
| AdminGrants.MirrorAgrees | internal/admin/admin_grants_mirror.go:34-49 | from any prior state the pair's live grants are exactly those derived from its row and scopes with the same activation, each with its own instant or the row's; other pairs are untouched, and a pair that agrees is not written |
| AdminReach.LoadAdminScopeFromGrants | internal/auth/admin_grants.go:85-131 | tenant-wide for an activated owner grant, the ascending list of applications otherwise, nothing without activated grants |
| AdminReach.ListAdminReach | internal/auth/admin_grants.go:237-290 | each tenant with an activated grant once, in order, as owner if any row says so, else with its applications in ascending order |
| AdminReach.HasAdminGrant | internal/auth/admin_grants.go:296-315 | a role exactly when there is an activated grant, owner exactly when there is an owner grant |
| AdminReach.DefaultAdminTenant | internal/auth/admin_grants.go:326-344 | the first owned tenant if there is one, else the first administered |
| AdminReach.AgreementOnReach | internal/admin/admin_grants_mirror.go:40-48 | under an agreeing mirror, grant and owner checks say what the administrator rows say |
| AdminReach.ScopesAgreeIff | internal/auth/admin_grants.go:66-84 | both models resolve a pair to the same scope exactly when it is not an activated co-owner of no application |
| AdminReach.ListingAgrees | internal/auth/admin_grants.go:225-290 | the tenant directory shows exactly the tenants actively administered, with the row's role and applications |
| TenantAdmins.RemirroringAgrees | internal/admin/admin_grants_mirror.go:20-27 | after a change confined to one pair, mirroring that pair restores agreement everywhere |
| TenantAdmins.AgreementIsShaped | migrations/00078_admin_grants.sql:78-81 | agreeing grants have the shape the table's CHECK demands |
| TenantAdmins.AllInTenantIff | internal/admin/tenant_admins.go:786-800 | the count accepts a list exactly when every application is the tenant's and none is named twice |
| TenantAdmins.ScopesChangeIff | internal/admin/tenant_admins.go:956-968 | a change of grants is reported exactly when the set of applications differs |
| TenantAdminRuns.StepKeepsInv | internal/admin/tenant_admins.go:165-702 | every transaction keeps the index, owners without scopes, co-owners with at least one, agreement of both models, and the cap |
| TenantAdminRuns.EveryRun | internal/admin/tenant_admins.go:165-702 | after any run a tenant has at most 25 live administrators, nobody is a co-owner of nothing, and both models resolve every pair alike |
| TenantAdminRuns.MayGrantIff | internal/admin/grant_escalation.go:68-127 | a grant is allowed exactly unless the target is known to be the actor, and to the platform tier or, for a co-owner, to an activated owner by the administrator rows |
| TenantAdminRuns.OwnGrantKeptIff | internal/admin/tenant_admins.go:228-242 | an invitation leaves the inviter's own grant as it is exactly when the address is another's or the grant is repeated |
| TenantAdminRuns.OwnersKeepOwnGrant | internal/admin/tenant_admins.go:890-903 | and always when the inviter is not of the platform tier |
| TenantAdminRuns.SelfInvitePromotes | internal/admin/tenant_admins.go:228-242 | a platform administrator makes itself an owner by inviting its own address |
| TenantAdminRuns.MayRemoveIff | internal/admin/grant_escalation.go:134-166 | a removal is allowed exactly of another user, to the platform tier or, of one who is not an activated owner, to an activated owner |
| TenantAdminRuns.OrdinaryRunsKeepOwners | internal/admin/grant_escalation.go:68-166 | without the platform tier nobody becomes an owner, and no activated owner stops being one |
| TenantAdminRuns.RunsKeepUsable | internal/admin/tenant_admins.go:660-691 | a tenant with a usable owner keeps one, and one with a usable administrator keeps one, unless an account is disabled |
| TenantAdminEffects.RemovalRemoves | internal/admin/tenant_admins.go:604-651 | a removed administrator has no row, no grant and no reach, and every other pair keeps its row, applications and grants |
| TenantAdminEffects.RemovalIff | internal/admin/tenant_admins.go:568-702 | a removal commits exactly when the administrator is the tenant's, the actor is somebody else entitled to it by the administrator rows, and an owner who can sign in stays for an owner, an administrator who can for a co-owner who had accepted |
| TenantAdminEffects.RemovalRefusedIff | internal/admin/grant_escalation.go:134-166 | which of the rules refuses a removal, each exactly when it applies |
| TenantAdminEffects.SetGrantsSets | internal/admin/tenant_admins.go:493-544 | a co-owner administers exactly the named applications, with its role and activation as they were; a kept grant keeps its instant, a new one has the row's, and every other pair is as it was |
| TenantAdminEffects.SetGrantsIff | internal/admin/tenant_admins.go:493-530 | this commits exactly for a co-owner of the tenant and applications of the tenant named once each, at least one; each refusal exactly when it applies |
| TenantAdminEffects.InvitationInvites | internal/admin/tenant_admins.go:228-430 | an invited account administers the tenant in the role and for exactly the applications named, its acceptance as it was and none for a new one, and every other pair is as it was |
| TenantAdminEffects.InvitationIff | internal/admin/tenant_admins.go:165-430 | an invitation commits exactly when its applications are well named, its actor may grant the role, it demotes no owner, a new administrator fits under 25, and it says something new or repeats a pending one not too recent |
| TenantAdminEffects.InvitationRefusedFor | internal/admin/tenant_admins.go:165-430 | and is refused for the first of these grounds that applies |
| TenantAdminEffects.AcceptanceActivates | internal/auth/tenant_admin.go:46-95 | accepting stamps a pending row and all its grants with the instant it is done, writes no other pair, and done again changes none of them |
| TenantAdminService.Service.ReplaceGrants | internal/admin/tenant_admins.go:922-969 | the administrator's scopes become the named ones and nobody else's change |
| TenantAdminService.Service.InviteTenantAdmin | internal/admin/tenant_admins.go:165-430 | commits the invitation or refuses with its reason and leaves the state as it was |
| TenantAdminService.Service.SetTenantAdminGrants | internal/admin/tenant_admins.go:493-544 | commits the new applications of a co-owner or refuses and changes nothing |
| TenantAdminService.Service.RemoveTenantAdmin | internal/admin/tenant_admins.go:568-702 | commits the removal unless the rules or the last-owner guards refuse, which undoes it |
| RoleStore.NormaliseRoleNames | internal/auth/app_user_roles.go:316-331 | exactly the non-empty trimmed names, each once |
| RoleInvariants.ReachStaysInScope | internal/admin/service.go:1250-1267 | a permission reached through a held live role that is not a system role lies in the user's own tenant and application |
| RoleInvariants.EarliestExists | internal/admin/service.go:2178-2189 | the promotion subquery finds the earliest grant of a live role, and nothing only for a user without any |
| RoleWriters.PassesIff | internal/admin/service.go:2036-2070 | a check passes exactly when role and user are live, the role is not a system role and the scopes are one; all but the first stays true |
| RoleWriters.AssignIsGood | internal/admin/service.go:1968-2006 | once checked, replacing a user's roles writes nobody else, grants in scope only, and leaves a primary that is held |
| RoleWriters.AddIsGood | internal/admin/service.go:2097-2121 | adding a role does the same, and never leaves a live user holding live roles without a primary where there was one |
| RoleWriters.RemoveIsGood | internal/admin/service.go:2142-2193 | so does removing one, the primary included |
| RoleWriters.AppAssignIsGood | internal/auth/app_user_roles.go:101-268 | so does an application's backend, whose roles are its own live ordinary ones |
| RoleWriters.AssignIsExact | internal/admin/service.go:1976-2006 | after a replacement the user holds that role, no other, and it is primary |
| RoleWriters.AddIsExact | internal/admin/service.go:2103-2121 | after an addition the user holds what was held, since when it was, and the new role, which is primary only if nothing was and the user is not deleted |
| RoleWriters.RemoveIsExact | internal/admin/service.go:2165-2193 | a removal takes that role alone; if it was primary the earliest live grant left takes its place, or nothing when none is left |
| RoleWriters.AppAssignIsExact | internal/auth/app_user_roles.go:202-259 | the user holds exactly the requested roles, together with what was held unless that was to be replaced; the row is untouched while its primary is still held, and otherwise its primary is the earliest grant |
| RoleEffects.CreatedRoleIs | internal/admin/service.go:1229-1271 | a role is created exactly when no live role of the scope has the name and every permission is the scope's; it has that name and exactly those permissions, and nothing else changes |
| RoleEffects.SetPermissionsIff | internal/admin/service.go:1358-1399 | a role's permissions are replaced exactly when it is a live one of the tenant and every permission is of its scope |
| RoleEffects.DeletedPermissionIsGone | internal/admin/service.go:1207-1220 | a deleted permission is gone from every role, and no role loses another |
| RoleEffects.SetDefaultIff | internal/admin/service.go:1588-1615 | a role becomes the default exactly when it is a live ordinary one of the application |
| RoleEffects.TakesOverIff | internal/admin/service.go:2178-2189 | what takes over as primary is exactly the live role held in the user's own tenant the longest, the lowest of those held equally long, and nothing only if there is none |
| RoleEffects.DeleteRoleIff | internal/admin/service.go:1454-1475 | a role is deleted exactly when it is a live ordinary one of the tenant |
| RoleEffects.CreatedUserIs | internal/admin/service.go:1782-1829 | a user is created exactly when its address is free, under the names, credential and role given, active and unverified, and nobody else is touched |
| RoleEffects.RefusedForUser | internal/admin/service.go:2036-2070 | which ground a check of a role for a user fails on, each exactly when it is the first to apply |
| RoleEffects.RefusedForScope | internal/admin/service.go:1750-1781 | the same for the role of a new user |
| RoleEffects.AssignedUserIs | internal/admin/service.go:1968-2006 | a replacement is written exactly for a user still live; the one grant left is as of the write, and nobody else is touched |
| RoleEffects.AddedUserIs | internal/admin/service.go:2097-2121 | an addition stamps its grant unless it was held already, and touches neither other grants nor other users |
| RoleEffects.RemovedRoleIs | internal/admin/service.go:2142-2193 | a removal is written exactly when the role is held in the tenant, and the other grants keep their instants |
| RoleEffects.AppAssignIff | internal/auth/app_user_roles.go:119-200 | a backend's request is granted exactly when it asks for something of a live user of the application and every name has a live ordinary role there |
| RoleEffects.GrantedAsNamed | internal/auth/app_user_roles.go:150-259 | each name asked for is granted as a live ordinary role of the application under that name, and no role is granted under another |
| RoleEffects.AppAssignedUserIs | internal/auth/app_user_roles.go:202-259 | its new grants are as of the write, what was held and not to be replaced keeps its instant, and nobody else is touched |
| RoleEffects.DeletedUserIs | internal/admin/service.go:2286-2300 | exactly a live user of the tenant, and of the application where one is named, is deleted: inactive, its address free, its row and grants otherwise kept |
| RoleEffects.RecordedIs | internal/admin/tenant_admins.go:270-333 | what an appointment remembers, once: the primary role where it is a live one of the tenant administered and not an administrator's own, else nothing |
| RoleEffects.AttachedIs | internal/auth/tenant_admin.go:95-134 | confirming it makes a live system role of the tenant primary, on top of what is held |
| RoleEffects.RestoredIs | internal/admin/tenant_admins.go:611-647 | dismissal takes the system grants, puts the remembered primary back, and forgets it |
| RoleEffects.DismissalUndoesAppointment | internal/admin/tenant_admins.go:611-647 | so appointing, confirming and dismissing gives a user with an ordinary primary back its row and its ordinary grants, each since when it was |
| RoleWriters.CreateUserKeeps | internal/admin/service.go:1782-1829 | once its role is checked, a new user holds at most that role, in its scope |
| RoleWriters.DeleteUserKeeps | internal/admin/service.go:2286-2300 | deleting a user keeps the invariants and every grant, and frees the address |
| RoleWriters.RestoreKeepsInv | internal/admin/tenant_admins.go:611-647 | removing an administrator never leaves a primary that is not held |
| RoleWriters.RestorePrimaryIff | internal/admin/tenant_admins.go:620-647 | it leaves a live user a primary exactly when one was recorded to restore or no live ordinary role is held |
| RoleWriters.ImportRowKeeps | internal/admin/user_import.go:802-838 | an imported row keeps every invariant, whether or not its role is still live |
| RoleWriters.DeleteRoleKeepsInv | internal/admin/service.go:1454-1582 | deleting a role keeps every invariant, among them at most one default per application, live and not a system role |
| RoleWriters.DeleteRoleKeepsSet | internal/admin/service.go:1548-1562 | and leaves no live user holding live roles without a primary |
| RoleWriters.ReportedAreTheHolders | internal/admin/service.go:1475-1512 | the users returned are exactly the live ones who held the role by any of its three routes |
| RoleWriters.DeletedIsGone | internal/admin/service.go:1514-1570 | afterwards nobody holds, is granted, defaults to or could be restored to the role |
| RoleWriters.OthersUnchanged | internal/admin/service.go:1520-1562 | every other grant is as it was; of the tenant, whose primary it was or who has none gets the earliest live role still held; every other row is as it was |
| RoleWriters.UnrelatedKeptIff | internal/admin/service.go:1548-1562 | a user whose primary it was not keeps its row exactly when of another tenant, with a primary, or without another live role |
| RoleWriters.InOrderIsKept | internal/admin/service.go:1548-1562 | so does every live user who lacked no primary |
| RoleRuns.StepKeeps | internal/admin/service.go:1229-2300 | every writer keeps the invariants and what was checked, however long ago, and all but the removal of an administrator keep primaries set |
| RoleRuns.EveryRun | internal/admin/service.go:1229-2300 | over every run, whatever is deleted between a check and its commit, held roles and reached permissions stay in scope, primaries are held, and defaults are live, ordinary and one to an application |
| RoleRuns.AssignIff | internal/admin/service.go:1968-2006 | a replacement leaves every held role live exactly when its user is gone or its role is still live |
| RoleRuns.AddIff | internal/admin/service.go:2097-2121 | an addition does exactly when its role is still live, be the user deleted or not |
| RoleRuns.CreateIff | internal/admin/service.go:1782-1829 | a creation does exactly when the address is taken or its role is still live |
| RoleRuns.ImportIff | internal/admin/user_import.go:673-838 | an imported row does exactly when its role is still live or it grants none: its user exists and it may not or does not change the role, or is new and an identity is in the way |
| RoleRuns.StepIff | internal/admin/service.go:1454-2197 | and every other writer always does |
| RoleRuns.LiveThroughoutIff | internal/admin/service.go:1454-2197 | so throughout a run nobody holds a deleted role exactly when every commit finds its role live |
| RoleRuns.TimelyRunsKeepPrimariesLive | internal/admin/service.go:1960-2193 | and then every primary is a live role its user holds |
| RoleRuns.PrimariesStaySet | internal/admin/service.go:2103-2193 | over every run without such a removal a live user's primary is unset only while no live role is held, and no role at all if every commit found its role live |
| RoleRuns.SetDefaultIsExclusive | internal/admin/service.go:1588-1637 | the chosen role becomes the application's only default and no other application's roles change |
| RoleRuns.SetPermissionsIsExact | internal/admin/service.go:1358-1399 | a role's permissions become exactly the named ones and no other role's change |
| RoleRuns.LateCommitBreaks | internal/admin/service.go:1963-2004 | a run in which a role is checked, deleted and granted, for each of the four writers that check first |
| RoleRuns.UnrelatedGetsPrimary | internal/admin/service.go:1548-1562 | a dismissed administrator left without a primary is given one by the deletion of a role nobody holds |
| RoleService.FirstGrant | internal/admin/service.go:2178-2185 | the scan computes the earliest live grant of the user's own tenant |
| RoleService.PromotedUsers | internal/admin/service.go:1550-1560 | promotion user by user is promotion of everybody at once |
| RoleService.Service.CreateRole | internal/admin/service.go:1229-1271 | a role with its permissions, or nothing when one of them is out of scope or the name is taken |
| RoleService.Service.DeleteRole | internal/admin/service.go:1454-1582 | the statements in order amount to the deletion, and the holders are reported |
| RoleService.Service.AssignUserRole | internal/admin/service.go:1960-2006 | check, whatever others commit, transaction: a failed check changes nothing, a refused write nothing of its own, and otherwise the replacement is written to what others left |
| RoleService.Service.AddUserRole | internal/admin/service.go:2092-2121 | the same for an addition |
| RoleService.Service.CreateUser | internal/admin/service.go:1750-1829 | and for a new user with its role |
| RoleService.Service.RemoveUserRole | internal/admin/service.go:2142-2193 | and for a removal with its promotion |
| RoleService.Service.AssignAppUserRoles | internal/auth/app_user_roles.go:119-259 | all the named roles or none, and exactly the unresolved names are reported missing |
| Lockout.TiersEscalate | internal/admin/lockout_policy.go:287-330 | under a valid policy tiers only escalate with the count, and the count before a hard lock is in the soft tier |
| Lockout.ValidPolicyIff | internal/admin/lockout_policy.go:287-330 | a policy is valid exactly within the documented ranges, with the soft threshold below the hard one and the warning at or below the soft one or off |
| Lockout.FaultIsTrue | internal/admin/lockout_policy.go:287-330 | and is refused only for something wrong with it |
| Lockout.FailureIsJudged | internal/auth/account_block.go:231-289 | a failure whose count comes to the soft threshold but not the hard one leaves a soft lock in force, ending exactly its duration from now when none was and unmoved when one was; the warning marker likewise below; any other count below the hard threshold starts neither, and the count restarts exactly when the last failure is out of the window |
| Lockout.FailureBlocks | internal/auth/account_block.go:370-440 | from the hard threshold on an active account is blocked as of now, its temporary tiers cleared, with one new link usable for exactly an hour; a blocked one keeps its block |
| Lockout.SuccessForgets | internal/auth/account_block.go:478-493 | a success forgets failures and temporary tiers and lifts no block |
| Lockout.ExpiryLiftsIff | internal/auth/account_block.go:509-556 | an automatic lock is lifted, with every tier and link, exactly when its duration has passed |
| Lockout.OperatorSwitches | internal/admin/service.go:2412-2460 | an operator's block is stamped as such and no link lifts it; activation restores the account |
| Lockout.LinkRestores | internal/auth/account_block.go:604-645 | a usable link restores the account and is spent, any other does nothing |
| Lockout.SoftLockIsNotExtended | internal/auth/lockout_notify.go:184-201 | further failures never move the end of a soft lock |
| Lockout.UnlockClearsEveryTier | internal/admin/service.go:2511-2574 | an unlock leaves no tier in force and no link that could lift a later block, and is idempotent |
| Lockout.AccountBlockService.FailedLogin | internal/auth/account_block.go:215-289 | the count, then the most severe tier it reaches; reports exactly the failure that blocked the account |
| Lockout.AccountBlockService.SuccessfulLogin | internal/auth/account_block.go:478-493 | counter, soft lock and warning marker are cleared |
| Lockout.AccountBlockService.Expire | internal/auth/account_block.go:509-556 | lifts an automatic lock that has run its time, and no other block |
| Lockout.AccountBlockService.UseToken | internal/auth/account_block.go:604-645 | an unused unexpired link lifts an automatic block and is spent |
| LockoutRuns.StepKeepsInv | internal/auth/account_block.go:215-289 | every way to block or restore an account keeps the counter true to its failures and blocked accounts with a reason |
| LockoutRuns.EveryRun | internal/auth/account_block.go:231-275 | the counter is the length of the longest run of latest failures since the last reset with gaps within the window, an active account is below the hard threshold, and every failure counted into the soft tier left a soft lock in force, of at most its duration |
| LockoutRuns.HardLockComesLast | internal/auth/account_block.go:250-289 | a hard lock falls on the threshold exactly, after every lower count, each of which from the soft threshold on left the account soft-locked |
| LockoutRuns.SoftLockStartsOnly | internal/auth/lockout_notify.go:184-201 | a soft lock starts only at a failure in its tier that finds none in force, for exactly its duration |
| LockoutRuns.MailedLinkLifts | internal/auth/account_block.go:604-645 | the link a block mails out lifts it at any time of the next hour |
| LockoutRuns.LinkWorksOnce | internal/auth/account_block.go:604-645 | whatever happens afterwards, no link works twice |
| LockoutRuns.AdminBlockStands | internal/auth/account_block.go:504-508 | a block by an administrator is lifted by SetUserActive or UnlockUser alone |
| LockoutRuns.LockLiftsOnlyByRight | internal/auth/account_block.go:509-645 | an automatic lock is lifted only once its duration has passed, by a valid link, or by an operator |
| ServerIp.ContainsWhatIsDenoted | internal/auth/app_trust.go:460-505 | a stored prefix contains exactly the addresses of its family its entry denotes, IPv4-mapped ranges as the IPv4 ranges they mean |
| ServerIp.AcceptedIff | internal/auth/app_trust.go:460-505 | an entry is accepted exactly when it can be read, has no zone, names neither the unspecified nor a multicast address in the family it means, and is no wider there than /24 or /48; each refusal is for something true of it |
| ServerIp.StoredIsNarrow | internal/auth/app_trust.go:495-504 | no stored range is wider than /24 or /48, has a zone, is IPv4-mapped or has host bits |
| ServerIp.RenormalizesIff | internal/auth/app_trust.go:460-505 | a stored prefix normalises to itself exactly when masking did not reach the all-zero address |
| ServerIp.ZeroNetworkIsNotReaccepted | internal/auth/app_trust.go:495-504 | an accepted entry whose stored form would be refused |
| ServerIp.NormalizeServerIPs | internal/auth/app_trust.go:429-452 | each prefix once, in the order first met and under its first description, refused only for the first entry out of order, for its own fault, or for too many prefixes |
| ServerIp.AllowsIP | internal/auth/app_trust.go:105-119 | allowed exactly when some prefix contains the address once unmapped |
| ServerIp.ListAdmitsWhatIsDenoted | internal/auth/app_trust.go:425-452 | an accepted list admits an address exactly when one of its entries is about it |

## Left out

- Unicode and addresses: lower-casing, trimming and normalisation of text are parameters, lengths count characters rather than bytes, and reading an IP address from text is not modelled.
- Hashing: SHA-256, password hashing and token generation are functions about which nothing is assumed beyond what a lemma names.
- Other database constraints: besides the e-mail index and the two keys of the identity table, an imported row meets no constraint, so the worker's rejection of a row for a constraint of its own is not modelled.
- Import documents: JSON decoding, the shape of stored payloads beyond their credentials, expiry of retained reports and the paging of reports.
- ImportService.ImportService.CancelImportJob: is one call here; the interleavings of its two statements with the workers are in the protocol's runs.
- Audit enrichment: location, risk, login statistics and redaction of metadata, which no hash covers, and inserts by more than one writer.
- AuditLogger.Logger.Close: is the undisturbed shutdown; overlapping calls to log are in the pipeline's runs, and the time limit of the caller is not modelled.
- Purges: remove a prefix of the rows in id order, as rows are written in the order they were logged.
- Concurrent administration: each administrative transaction is one step, so two removals that race for the last owner are not modelled; deleting an application, which takes its scopes and grants with it, is not either.
- Invitations: mail, the invitation table and its acceptance are reduced to whether one is pending or recent and to the stamp on the administrator's row.
- RoleWriters.RestoreKeepsInv: covers administrators of their home tenant; the statements act on the user in every tenant, and nothing is claimed of the others.
- Overlapping role writers: a transaction is one step and only what is read before it is a step of its own, so statements of two transactions do not interleave.
- Sign-up: registration, federated sign-up and organisation invitations also give new users a role, and are not among the writers of the runs.
- Sessions and tokens: token versions, refresh tokens and the deny list that follow a role change or a block.
- Role names and permissions: renaming, listing and the seeding of the tenant's own roles.
- Lockout notices: e-mails, audit events and the tenant-wide spike alert; a policy is fixed during a run, and resolving which policy applies is not modelled.
- Everything that serves HTTP: routes, handlers, middleware, exports, listings, dashboards, captcha, sessions, MFA and rate limits.

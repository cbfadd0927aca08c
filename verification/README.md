# Blue-green deployments and provisioning sagas, proved

A model in Dafny of two parts of the repository, and proofs about it.

**The blue-green deployment protocol** (`internal/bluegreen`, `cmd/blue-green/main.go`). A perpetual coordinator
workflow owns the schema lock of one database. A deployment workflow moves a plan through eight phases, four human
gates, retried and partially applied DDL, a read-only window raced by a timer, and compensation. A client glues the two
together.

- `Schema.dfy` gives SQL its meaning: statements that add and drop columns, queries that need columns, lists that are
  retried.
- `Deployment.dfy` is the deployment workflow as a state machine. One step is one statement, one query, the end of one
  attempt, one consumed signal or the timer. An attempt can be interrupted after any prefix of its statements.
  `DeploymentFacts.dfy`, `DeploymentLog.dfy`, `DeploymentData.dfy` and `DeploymentSchema.dfy` prove its invariants,
  `DeploymentTheorems.dfy` and `DeploymentWork.dfy` its promises, its bound and its attempts, `DeploymentCompletion.dfy`
  which deployments complete.
- `Coordinator.dfy` is the coordinator as functions on its state.
- `Protocol.dfy` composes clients, coordinator, deployments, signals and the shared schema into one transition system
  over unboundedly many requests, plans and coordinator runs. `ProtocolLock.dfy`, `ProtocolSafety.dfy`,
  `ProtocolTheorems.dfy` and `ProtocolLiveness.dfy` prove what holds in every execution.
- `Workflow.dfy`, `CoordinatorWorkflow.dfy`, `Migrator.dfy` and `Client.dfy` are the same workflows, fake migrator and
  client as imperative classes, in the form the source has, each proved to be a run of the machine above. So what is
  proved of the machine holds of them. `Script.dfy` says which answers of activities and gates lead the deployment
  workflow where.
- `ProtocolRuns.dfy` constructs executions. `Workshop.dfy` is the repository's own scenario, an instance to which the theorems apply.

**The provisioning sagas** (`internal/temporal`) over the in-memory resources.

- `SchemaRegistry.dfy`: the registry, its BACKWARD rule, and histories of registrations.
- `Connectors.dfy` and `ConnectorActivities.dfy`: two registries that are updated one after the other, and the polling
  loop.
- `Provisioning.dfy`, `ProvisioningTheorems.dfy` and `ProvisioningSuccess.dfy`: sagas as logs of activities, each with
  the number of its attempts that took effect; what success, compensation and decommissioning leave behind.
  `ProvisioningWorkflows.dfy`: the workflows and
  the fakes as imperative classes, proved to produce such logs.

`dafny verify dfyconfig.toml` checks everything.

## How to read the results

Time is not measured: timers are events that may happen whenever the source allows them to. An activity is a sequence of
attempts, as many as its retry policy gives it. What the environment decides (which signal arrives, whether a worker is
lost, whether a reply is lost) is an event in the state machines; the workflow classes and the client are given it as an
arbitrary environment, so that their contracts also say what they do when nothing comes in between.

Where the code and its documentation differ, the model follows the code:

- A lock timeout signals a rollback to the deployment that holds the lock. If the client never started that deployment,
  nothing releases the lock, ever (`ProtocolLiveness.LockIsFreeableIffNotAbandoned`); two events are enough for that
  (`ProtocolRuns.GrantCanBeLost`). The workshop text presents the
  timeout as unconditional (`cmd/blue-green/README.md:336-343`); it also gives 5 minutes for it, where the code has 10
  minutes, 60 minutes and 24 hours (`internal/bluegreen/domain.go:58-67`). Durations play no part in the proofs.
- `internal/bluegreen/workflow.go:190` says that both application versions must pass after the expand. Only blue can
  fail that check (`internal/bluegreen/activities.go:122`), and green can be invalid at its gate
  (`ProtocolRuns.GreenFailsAtTheGate`). Both are valid there exactly when the columns green needs are among those that
  the expand list makes of the schema the deployment started on (`ProtocolTheorems.BothPassIff`), which can be told
  before the deployment.
- A deployment sends its completion and returns only after the reply (`internal/bluegreen/workflow.go:92`). In between
  the lock can be granted for the same plan again, and then the start is refused because the workflow ID is taken
  (`cmd/blue-green/main.go:226-229`), so that the new grant is lost for good. This is exactly when it happens
  (`ProtocolLock.StartIsRefusedIff`), and it does happen (`ProtocolRuns.StartCanBeRefused`).
- `internal/connectors/schema.go:22` says that making an optional field required is rejected. It is accepted
  (`SchemaRegistry.OptionalMadeRequiredIsAccepted`), and it is the only case where an accepted schema cannot read what
  its predecessor wrote (`SchemaRegistry.AcceptedIsReadableIff`).
- The pre-flight schema check compares with a subject of its own and can pass what registration then rejects
  (`SchemaRegistry.PreflightPassesWhatRegistrationRejects`). It also takes the mode as it is
  (`internal/temporal/activities.go:53`), where registration reads no mode as BACKWARD
  (`internal/temporal/activities.go:62-65`, `internal/domain/types.go:92`), so that without a mode it applies no rule
  (`SchemaRegistry.NoModeIsNotBackward`). For a subject with versions it is right exactly if the mode is BACKWARD and
  the latest versions of the two subjects have the same field names, or the mode is some other text
  (`SchemaRegistry.PreflightIsRightIff`).
- `internal/temporal/session2_workflow.go:171` says that compensation runs in reverse creation order. That is so until
  both the connector and the sink have to go (`Provisioning.CompensationIsReverseIff`).
- A contract whose drops do not say IF EXISTS cannot be retried once an attempt has been lost halfway; the plan of
  `internal/bluegreen/domain_test.go:13-40` is one (`Workshop.WorkshopContractIsNotRetrySafe`). Exactly which statement
  lists can be retried: `Schema.RetriesSucceedIffSafe`.
- The creating activities of the sagas are not idempotent. An attempt whose reply is lost and that is retried leaves a
  stream or a sink behind that no compensation removes (`ProvisioningWitnesses.LostReplyLeavesAStream`), and a connector
  creation whose reply is lost makes the saga fail without deleting the connector
  (`ProvisioningWitnesses.LostReplyLeavesAConnector`). `ProvisioningTheorems.ConservedIff`,
  `ProvisioningTheorems.ConnectorConservedIff` and `ProvisioningTheorems.RecordConservedIff` say exactly when everything
  is conserved.
- A lock timeout is addressed by workflow ID alone and can reach a later deployment of the same plan
  (`ProtocolRuns.TimeoutCanHitTheNext`). `ProtocolTheorems.TimeoutHitsItsTargetIff` says exactly when it reaches the one
  it was armed for.
- A connector creation that is interrupted between its two writes leaves a connector that only one registry knows
  (`Connectors.TornCreationDisagrees`). It can never succeed afterwards; only a deletion repairs it
  (`Connectors.OnlyDeleteRepairs`).

## Model

| member | source | states |
|---|---|---|
| `ProtocolTheorems.OneDeploymentAtATime` | internal/bluegreen/db_ops_workflow.go:70-131 | In every state of every execution, unstarted grants, abandoned grants, deployments that have not sent their completion and completions on their way add up to 1 if the coordinator has an active deployment and to 0 if not; at most one deployment has work left to do, and it is the one the coordinator names |
| `ProtocolTheorems.ReleaseIsForTheHolder` | internal/bluegreen/db_ops_workflow.go:144-165 | The completion handler never compares plan IDs, and yet every completion on its way names the active deployment, which has ended in the reported phase; handling it leaves the lock free and nobody holding it |
| `ProtocolLock.MutualExclusion` | internal/bluegreen/db_ops_workflow.go:115-127 | The invariant behind the lock: occupancy is 0 or 1 according to the coordinator, and while a deployment runs there is no other grant, running deployment or completion anywhere |
| `ProtocolLock.LockKept` | internal/bluegreen/db_ops_workflow.go:70-185 | Every event of the protocol keeps the lock invariant: mode of the lock, tickets, timer ownership and grant count together |
| `ProtocolLock.CompletionNamesTheHolder` | internal/bluegreen/workflow.go:83-93 | The payload a deployment sends is the one the coordinator needs: it names the holder and the phase it ended in |
| `ProtocolLock.StartIsRefusedIff` | cmd/blue-green/main.go:217-230 | With a grant in hand, the start is refused if and only if an earlier deployment of the same plan has sent its completion and not returned; otherwise it can be made; and no two open deployments are of the same plan |
| `ProtocolRuns.StartCanBeRefused` | internal/bluegreen/workflow.go:92 | For every plan and schema there is an execution in which a granted start is refused for that reason, and the grant is abandoned |
| `ProtocolTheorems.CheckToUseStability` | internal/bluegreen/workflow.go:251-276 | From a passed pre-contract check until the first contract statement takes effect, in whichever attempt that is, every green query and every blue query is valid on the shared schema, whatever all other clients and deployments do; blue is so from a passed post-expand check on |
| `ProtocolTheorems.FinalCheckIsExact` | internal/bluegreen/workflow.go:253-262 | The pre-contract check opens the contract gate if and only if all green queries are valid on the schema at that moment, although it looks at one query after the other; otherwise compensation begins |
| `ProtocolTheorems.PreCheckIsExact` | internal/bluegreen/workflow.go:190-195 | The check after the expand opens its gate if and only if all blue queries are valid on the schema at that moment; otherwise it is retried, and after the last attempt compensation begins |
| `ProtocolTheorems.BothPassIff` | internal/bluegreen/workflow.go:190-201 | At the gate after the expand both versions are valid if and only if the columns that green needs are among those that the expand list makes of the schema the deployment started on; for a list that only adds, among the starting ones and the added ones; blue always is valid there |
| `ProtocolTheorems.ExpandIsExact` | internal/bluegreen/workflow.go:173-276 | For every plan and whatever attempts were lost wherever: from the success of the expand until the first contract statement takes effect, the schema is exactly what the expand list makes of the one the deployment started on, column by column |
| `ProtocolTheorems.CompletionMigrates` | internal/bluegreen/workflow.go:272-300 | A deployment that completes has made of its starting schema exactly what the expand list and then the contract list make of it, lost attempts or not, and it stays so until another starts |
| `DeploymentCompletion.FailsIffReason` | internal/bluegreen/activities.go:50-180 | An attempt that is not lost fails if and only if there is a reason: validation for an invalid plan, a statement list for a plain DROP of a column that is not there, verification for an invalid query or another count, the check after the expand for an invalid blue; acquiring, switching, releasing and the later checks never fail |
| `DeploymentCompletion.CompletionNeeds` | internal/bluegreen/workflow.go:159-300 | Whatever was lost on the way: a deployment that completes had a valid plan whose expand runs on the schema it started on and whose queries, blue, green and contract fit what that makes of it |
| `DeploymentCompletion.CompletesIff` | internal/bluegreen/workflow.go:159-300 | A run in which no attempt is lost, the timer is silent, no rollback is taken and counts are as wanted has completed, when it has ended, if and only if the plan, the application and the starting schema meet these conditions |
| `DeploymentCompletion.CompletableIff` | internal/bluegreen/workflow.go:159-300 | Some run completes if and only if they meet them, and then one does in which nothing comes in between; losing attempts never helps |
| `DeploymentCompletion.ErrorComesBack` | internal/bluegreen/migrator_fake.go:46-88 | A statement list that is in error at a statement on the first attempt is in error there again whenever a later attempt gets that far |
| `DeploymentCompletion.LackingPlansDoNothing` | internal/bluegreen/domain.go:235-254 | A plan without an ID, one of its three lists or the text of a query never touches the schema and never gets to a gate; all its deployment can do is fail |
| `ProtocolTheorems.OnlyCompletableOnesComplete` | internal/bluegreen/workflow.go:159-300 | In every execution of the protocol, every deployment that has ever completed met those conditions on the schema it started on |
| `ProtocolRuns.DeploymentsComplete` | internal/bluegreen/workflow.go:159-300 | For every application, schema and plan that meet them there is an execution in which the deployment completes after eight phases, with the schema migrated |
| `ProtocolTheorems.SchemaFollowsHistory` | internal/bluegreen/workflow.go:141-300 | If every deployment that has ended was completed, or was reversible and rolled back cleanly, each started on what the completed ones before it make of the very first schema, in order, and whenever the lock is free the schema is what all completed ones make of it |
| `ProtocolRuns.VerifyGateIgnoresGreen` | internal/bluegreen/activities.go:96-126 | For every application and every schema on which blue works there is an execution that stands at that gate on that very schema, whatever green makes of it |
| `ProtocolRuns.GreenFailsAtTheGate` | internal/bluegreen/activities.go:122-124 | An application, a schema and an execution at the gate where green does not work |
| `ProtocolRuns.RunsEmbed` | cmd/blue-green/main.go:185-233 | Every run of a deployment on its own, with its effects on the database, is a run of the whole protocol |
| `ProtocolTheorems.ExactRestoration` | internal/bluegreen/workflow.go:141-157 | For a plan whose expand adds fresh columns and whose rollback drops them, every run in which a rollback attempt succeeded ends rolled back and leaves exactly the columns it started on, until another deployment starts, whatever prefixes its attempts applied and whatever triggered the rollback |
| `ProtocolTheorems.RestorationComposes` | internal/bluegreen/workflow.go:141-157 | After any number of deployments, each reversible where it started and rolled back cleanly, the schema is the very first one |
| `ProtocolTheorems.BlueAppStaysAlive` | internal/bluegreen/workflow.go:141-276 | For every deployment, however many came before it: if blue works on the schema it starts on and its plan keeps what blue needs, all blue queries are valid in every intermediate state, mid-expand, cutover, monitoring, mid-rollback and after its end until another starts, until its first contract statement takes effect |
| `ProtocolTheorems.BlueOutlivesDeployments` | internal/bluegreen/workflow.go:141-276 | Over any number of deployments of which none has reached its contract, blue works in every state if it worked on the very first schema |
| `ProtocolTheorems.WritableOutsideCutover` | internal/bluegreen/workflow.go:204-239 | If no release attempt failed, a read-only database means that some deployment is running in its cutover phase, inside its window |
| `ProtocolTheorems.TrafficIsSwitchedReadOnly` | internal/bluegreen/workflow.go:203-225 | Whenever traffic is being switched, in any execution, the database is read-only |
| `ProtocolTheorems.EveryDeploymentKeepsItsPromises` | internal/bluegreen/workflow.go:50-301 | History grammar, point of no return, read-only discipline and single notification hold of every deployment in every execution of the whole protocol |
| `ProtocolTheorems.TimeoutsGoToTheHolder` | internal/bluegreen/db_ops_workflow.go:84-107 | When a lock timer's goroutine runs, it signals a rollback to the current holder or to nobody, and a timer that signals is the one armed at the grant that holds the lock |
| `ProtocolTheorems.TimeoutHitsItsTargetIff` | internal/bluegreen/db_ops_workflow.go:97-106 | The signal is addressed by workflow ID alone: it reaches the deployment it was armed for if and only if that was started and no later grant under the same ID has been; an earlier deployment is reached only while it returns |
| `ProtocolRuns.TimeoutCanHitTheNext` | internal/bluegreen/db_ops_workflow.go:100-105 | For every plan and schema there is an execution in which a timeout armed for one deployment can be delivered to the next one of the same plan, which then has a rollback in its queue |
| `ProtocolTheorems.ReturnedIsFinal` | internal/bluegreen/workflow.go:276-300 | Nothing that can ever happen in the protocol changes a deployment that has returned: neither its log nor its history |
| `ProtocolTheorems.GrantConservation` | internal/bluegreen/db_ops_workflow.go:136-185 | Over the whole chain of coordinator runs, grants equal processed completions plus one if a deployment is active; processed completions are delivered ones, and iterations of the event loop are those and one for each 24h timer taken |
| `ProtocolTheorems.LoopAccounting` | internal/bluegreen/db_ops_workflow.go:167-184 | Although a fired 24h timer stays ready, the event loop goes around exactly once per processed completion and at most once more per coordinator run |
| `ProtocolTheorems.ContinueAsNewDropsNothing` | internal/bluegreen/db_ops_workflow.go:179-184 | When the coordinator continues as new there is no holder, no grant, no deployment with work left to do, no completion on its way and no live lock timer to lose |
| `ProtocolTheorems.RecyclesIff` | internal/bluegreen/db_ops_workflow.go:167-184 | The coordinator continues as new exactly if the 24h timer is taken while nobody is active, or a completion is processed after it was taken; then it starts over with nothing, its next timer not fired, and no other event does that |
| `ProtocolSafety.InvKept` | internal/bluegreen/workflow.go:50-301 | Every event of the protocol keeps the whole invariant: lock, logs, check results, restoration bounds, what statement lists have made of the schema, read-only flag, chain of deployments, blue's columns |
| `ProtocolLiveness.BoundedRelease` | internal/bluegreen/workflow.go:118-157 | Once a rollback has reached a holder parked at a gate without approvals, every order of internal steps ends within a bound fixed by the plan, one step more for each earlier deployment that has yet to return; where it ends the deployment is rolled back and the lock is free |
| `ProtocolLiveness.TimeoutFreesTheLock` | internal/bluegreen/db_ops_workflow.go:84-107 | A lock timer that signals while the holder is parked at a gate without approvals puts a rollback on its way that can be delivered to that holder, and after the delivery every order of internal steps ends within that bound, with the lock free |
| `ProtocolRuns.GrantCanBeLost` | cmd/blue-green/main.go:206-230 | A request and the loss of its answer, two events from the start, make a lock that nothing can free |
| `ProtocolLiveness.AbandonedForever` | cmd/blue-green/main.go:213-230 | After a grant whose client gave up, nothing that can ever happen changes the holder; no request is granted again |
| `ProtocolLiveness.LockIsFreeableIffNotAbandoned` | internal/bluegreen/db_ops_workflow.go:84-165 | In every reachable state, some continuation frees the lock if and only if no grant has been abandoned |
| `ProtocolLiveness.ReleasingStep` | internal/bluegreen/workflow.go:141-157 | Each internal step uses up some of the work that remains until the lock is free and everyone has returned, and a doomed holder stays doomed |
| `Coordinator.TimersStayOwned` | internal/bluegreen/db_ops_workflow.go:78-107 | Every event keeps: the active deployment has exactly one lock timer that is not cancelled, the one the cancel function would cancel, and without one there is none |
| `Coordinator.LockTimerOwnership` | internal/bluegreen/db_ops_workflow.go:78-107 | In every state of every coordinator run, whatever arrives, the active deployment has a live lock timer and nobody else has; a goroutine that runs signals the current holder if its timer was not cancelled and nobody if it was, also when firing and completion race |
| `Coordinator.OneSignalPerGrant` | internal/bluegreen/db_ops_workflow.go:84-107 | However timers and completions race, there are at most as many rollback signals as grants, counting those that timers still pending can send |
| `DeploymentTheorems.DepInvKept` | internal/bluegreen/workflow.go:50-301 | Every step of a deployment keeps its invariant over history, key path, effect log, notification and read-only flag |
| `DeploymentTheorems.HistoryFollowsGrammar` | internal/bluegreen/workflow.go:64-78 | History is always a non-empty prefix of the happy path, optionally closed by rolled back after one to six entries or failed after one or seven; phase is its last entry; a run that has reported has ended in that phase |
| `DeploymentTheorems.PointOfNoReturn` | internal/bluegreen/workflow.go:118-282 | Contract statements and rollback statements never occur in the same run, and contract statements occur only after the full path of exactly four approvals, successful expand, verification with every count as wanted, blue check, switch, and green check |
| `DeploymentTheorems.WindowIsClosedInTime` | internal/bluegreen/workflow.go:204-239 | Every attempt to go read-only, also one that reported failure, is followed by a release attempt before monitoring or rolled back is entered and before any rollback statement |
| `DeploymentTheorems.NotificationIsUnique` | internal/bluegreen/workflow.go:83-93 | A run with a parent that has only to return, or has returned, has notified exactly once, as its very last effect, with the phase that is last in its history; any other run has not notified |
| `DeploymentTheorems.SignalsAreConserved` | internal/bluegreen/workflow.go:118-135 | Every approval and rollback sent is still queued or has been taken at one gate, once |
| `DeploymentTheorems.ContractNeedsFourApprovals` | internal/bluegreen/workflow.go:118-282 | Nothing of the contract is executed in any run before four approvals have been sent |
| `DeploymentData.FinishedCheck` | internal/bluegreen/appsim.go:97-113 | A check that has looked at all queries one by one knows exactly whether blue and green are valid on the schema |
| `DeploymentData.BlueOpensTheGate` | internal/bluegreen/workflow.go:190-195 | A finished post-expand check leads to the gate exactly if blue is valid, else to a retry or, at the last attempt, to compensation |
| `DeploymentData.ChecksKept` | internal/bluegreen/workflow.go:190-262 | Every step of a deployment keeps its passed checks true of the schema until it is allowed to destroy them |
| `DeploymentData.RestoreKept` | internal/bluegreen/workflow.go:141-179 | Every step keeps the columns between the starting ones and those plus the added ones, outside the contract, and a successful rollback restores the start |
| `DeploymentData.FullyDroppedIsRestored` | internal/bluegreen/migrator_fake.go:46-88 | Dropping every column a reversible plan adds gives back the starting columns |
| `DeploymentSchema.SchemaKept` | internal/bluegreen/migrator_fake.go:46-88 | Every step, also the loss of an attempt after any prefix, keeps the schema what the lists executed so far make of the starting one: during an attempt for the columns it has settled, after it for all |
| `DeploymentData.FlagKept` | internal/bluegreen/activities.go:128-156 | Every step keeps the read-only flag in agreement with what the log says of acquisitions and successful releases |
| `DeploymentWork.WorkDecreases` | internal/bluegreen/workflow.go:20-28 | A bound computed from the plan strictly decreases with every step a deployment takes by itself; signals and timers do not increase it |
| `DeploymentWork.NeverStuck` | internal/bluegreen/workflow.go:118-135 | A deployment that has not returned can always go on by itself without losing an attempt, unless it stands at a gate with nothing in its queues |
| `DeploymentWork.RunsAreBounded` | internal/bluegreen/workflow.go:50-301 | No run, however its attempts fail, takes more steps by itself than its plan and queues allow |
| `DeploymentWork.AttemptsAreLimited` | internal/bluegreen/workflow.go:15-28 | In every run, expand, contract, rollback and the release before it are attempted at most twice, every other activity at most three times, and one that is over without success exactly that often |
| `Schema.ValidityIsMonotone` | internal/bluegreen/migrator_fake.go:105-116 | Adding columns never invalidates a query |
| `Schema.RetriesSucceedIffSafe` | internal/bluegreen/migrator_fake.go:46-88 | A statement list that runs on a schema can be retried there, after any number of attempts lost at any statements, if and only if each DROP without IF EXISTS drops a column the list has added before; and exactly if it can be retried after any single lost attempt |
| `Schema.RunsEverywhereIffSafe` | internal/bluegreen/migrator_fake.go:46-88 | The same condition holds if and only if the list runs without error on every schema |
| `Schema.UnsafeDropFails` | internal/bluegreen/migrator_fake.go:75-83 | A list with a plain DROP of a column that is not there at that point fails |
| `Schema.AfterIsPresent` | internal/bluegreen/migrator_fake.go:46-88 | Executing statements and asking for one column what the statements say of it agree |
| `Schema.AfterIsTransformed` | internal/bluegreen/migrator_fake.go:46-88 | A list that runs without error makes of a schema what reading it column by column says |
| `Workshop.CustomerAppNeeds` | internal/bluegreen/appsim.go:50-93 | Blue works on exactly the schemas with its four columns, green on exactly those with its five |
| `Workshop.CustomerPlanFits` | internal/bluegreen/domain_test.go:13-40 | The plan is valid and reversible on the original schema, where blue works and green does not; after its expand both work |
| `Workshop.CustomerPlanMigrates` | internal/bluegreen/domain_test.go:13-40 | After the expand the schema has what both versions need; the completed plan has renamed the column and added the other, and blue no longer works |
| `Workshop.CustomerPlanCompletes` | internal/bluegreen/domain_test.go:13-40 | On the original schema the plan can complete, and does in a run in which nothing comes in between |
| `Workshop.WorkshopContractIsNotRetrySafe` | internal/bluegreen/domain_test.go:22-26 | Once two of its contract statements have run, every retry fails at once |
| `Migrator.Failing` | internal/bluegreen/appsim.go:100-111 | The failing queries are exactly those of the list that the schema does not support, none if and only if all are valid |
| `Migrator.FakeDatabaseMigrator.ApplyDdl` | internal/bluegreen/migrator_fake.go:64-88 | One statement's effect on the columns, or the error that changes nothing |
| `Migrator.FakeDatabaseMigrator.ExecuteSQL` | internal/bluegreen/migrator_fake.go:46-60 | Statements take effect in order up to the first error or the loss of the worker; it succeeds if and only if all did; the one in error is recorded but has no effect |
| `Migrator.FakeDatabaseMigrator.ValidateQuery` | internal/bluegreen/migrator_fake.go:105-124 | True exactly if every referenced column exists |
| `Migrator.FakeDatabaseMigrator.QueryCheck` | internal/bluegreen/migrator_fake.go:90-103 | An error exactly if a column is missing, otherwise the count fixed for the text, or zero |
| `Migrator.FakeDatabaseMigrator.SetReadOnly` | internal/bluegreen/migrator_fake.go:126-134 | Sets the flag and touches no column |
| `Migrator.FakeDatabaseMigrator.RunAppCompat` | internal/bluegreen/appsim.go:97-113 | Passes and lists of errors for both query sets, exactly those of the current columns |
| `Workflow.RunInv` | internal/bluegreen/workflow.go:50-301 | Every run of the machine satisfies the deployment invariant, the restoration bounds and the flag invariant, so the imperative workflow does |
| `Workflow.DeploymentWorkflow.SetPhase` | internal/bluegreen/workflow.go:70-78 | Phase and history move together |
| `Workflow.DeploymentWorkflow.NotifyParent` | internal/bluegreen/workflow.go:83-93 | Sends one completion with plan ID, workflow ID and phase if there is a parent, none otherwise, after which only returning is left to do |
| `Workflow.DeploymentWorkflow.WaitForApproval` | internal/bluegreen/workflow.go:118-135 | True exactly if the environment sends an approval; a rollback is remembered; the answer is added to the script; the run stands where the machine's gate puts it |
| `Workflow.DeploymentWorkflow.Compensate` | internal/bluegreen/workflow.go:141-157 | Release and rollback are both attempted, in this order, and whatever they answered the run ends rolled back with one completion |
| `Workflow.DeploymentWorkflow.Close` | internal/bluegreen/workflow.go:162-167 | The last phase is recorded once, the parent, if there is one, told once, and the run returns |
| `Workflow.DeploymentWorkflow.ExecuteActivity` | internal/bluegreen/workflow.go:20-28 | At most two attempts for statement lists and compensation, at most three for the rest; it fails only after all of them, and only if the last one was lost or the plan, the application or the schema gives a reason; the run stands where success, or the last failure, puts it; the answer is added to the script |
| `Workflow.DeploymentWorkflow.ValidatePlanActivity` | internal/bluegreen/domain.go:235-254 | Accepts exactly the plans with an ID, all three statement lists, and texts in all verify queries |
| `Workflow.DeploymentWorkflow.ExecuteSQLActivity` | internal/bluegreen/activities.go:56-65 | The migrator's statements are the machine's statements, one by one, also when the attempt is lost halfway; if it is not lost, it ends with the list or at a statement in error |
| `Workflow.DeploymentWorkflow.VerifyExpandActivity` | internal/bluegreen/activities.go:67-90 | Succeeds exactly if every query is valid and returns the count wanted, stopping at the first that does not |
| `Workflow.DeploymentWorkflow.RunAppCompatCheckActivity` | internal/bluegreen/activities.go:92-126 | Reports green exactly; fails exactly if blue is required and not valid |
| `Workflow.DeploymentWorkflow.SetReadOnlyActivity` | internal/bluegreen/activities.go:128-156 | Sets the flag, and succeeds, unless the worker is lost before it does |
| `Workflow.DeploymentWorkflow.SwitchTrafficActivity` | internal/bluegreen/activities.go:139-146 | Always succeeds |
| `Workflow.DeploymentWorkflow.ReadOnlyTimer` | internal/bluegreen/workflow.go:210-228 | The timer sets its flag exactly if it fires while traffic is being switched, and nothing else |
| `Workflow.DeploymentWorkflow.ReviewPlan` | internal/bluegreen/workflow.go:159-171 | The verdicts heard are those of `Script.Reviewed`: a failed validation ends in failed and nothing more is asked; otherwise the gate, a rollback there compensates, an approval goes on to the expand |
| `Workflow.DeploymentWorkflow.ExpandSchema` | internal/bluegreen/workflow.go:173-179 | By `Script.Expanded`: a failed expand is followed by compensation and by nothing else, a successful one by the verification |
| `Workflow.DeploymentWorkflow.VerifyExpand` | internal/bluegreen/workflow.go:181-188 | By `Script.Verified`: a failed verification compensates, a successful one goes on to the check of both versions |
| `Workflow.DeploymentWorkflow.CheckExpand` | internal/bluegreen/workflow.go:190-201 | By `Script.Checked`: a failed check and a rollback at the gate each compensate, an approval goes on to the cutover |
| `Workflow.DeploymentWorkflow.CutOver` | internal/bluegreen/workflow.go:203-208 | By `Script.CutOver`: a failed acquisition compensates without a switch, a successful one goes on to the switch |
| `Workflow.DeploymentWorkflow.SwitchTraffic` | internal/bluegreen/workflow.go:210-228 | By `Script.Switched`: whatever the timer and the switch say, the release comes next |
| `Workflow.DeploymentWorkflow.CloseWindow` | internal/bluegreen/workflow.go:230-239 | By `Script.WindowClosed`: after the release, an overrun window or a failed switch compensates, and only then; the answer of the release does not matter |
| `Workflow.DeploymentWorkflow.Monitor` | internal/bluegreen/workflow.go:241-248 | By `Script.Monitored`: a rollback during monitoring compensates, an approval goes on to the final check |
| `Workflow.DeploymentWorkflow.AwaitContract` | internal/bluegreen/workflow.go:250-263 | By `Script.Awaited`: an error of the final check compensates, and so does a failing green |
| `Workflow.DeploymentWorkflow.ReviewContract` | internal/bluegreen/workflow.go:265-270 | By `Script.ContractReviewed`: a rollback at the contract gate compensates, an approval goes on to the contract |
| `Workflow.DeploymentWorkflow.ContractSchema` | internal/bluegreen/workflow.go:272-300 | By `Script.Contracted`: a failed contract ends in failed with nothing after it, in particular no rollback; after a successful one the last verification is asked, ignored, and the run is complete |
| `Script.ReviewedIsSound` | internal/bluegreen/workflow.go:159-300 | Every whole script ends in the phase its last verdict leads to, in rolled back exactly if a rollback was attempted, and never both runs the contract and rolls back |
| `Script.CompleteIff` | internal/bluegreen/workflow.go:159-300 | A run ends complete if and only if every activity up to the contract succeeded, green passed the final check, all four gates were approved and the read-only window was not overrun; only the release and the last verification may fail |
| `Script.FailedIff` | internal/bluegreen/workflow.go:159-300 | A run ends failed if and only if its validation or its contract failed |
| `Workflow.DeploymentWorkflow.Execute` | internal/bluegreen/workflow.go:50-301 | The whole imperative workflow is a run of the machine and follows the script: its result, phase, history and single completion agree, it is complete exactly if everything decisive went well and failed exactly if validation or contract did; if nothing is lost, all gates are approved, the timer is silent and the counts are as wanted, it completes if and only if plan, application and starting schema allow it; a clean rollback of a reversible plan restores the migrator's columns, and the migrator is writable in the end if releases worked |
| `CoordinatorWorkflow.DatabaseOpsWorkflow.Validator` | internal/bluegreen/db_ops_workflow.go:116-127 | Accepts exactly if nothing is active, and leaves no trace |
| `CoordinatorWorkflow.DatabaseOpsWorkflow.Handler` | internal/bluegreen/db_ops_workflow.go:73-114 | Names the new holder, starts its timer and makes that timer the one to cancel |
| `CoordinatorWorkflow.DatabaseOpsWorkflow.RequestDeployment` | internal/bluegreen/db_ops_workflow.go:70-131 | Granted exactly if nothing is active; a rejected request changes nothing; a granted one replaces the holder and arms a timer of its own |
| `CoordinatorWorkflow.DatabaseOpsWorkflow.ReceiveCompletion` | internal/bluegreen/db_ops_workflow.go:144-165 | Cancels the holder's timer, records the completion, frees the lock |
| `CoordinatorWorkflow.DatabaseOpsWorkflow.LockTimerGoroutine` | internal/bluegreen/db_ops_workflow.go:89-107 | Signals the deployment it was armed for, unless it has been cancelled in the meantime |
| `CoordinatorWorkflow.DatabaseOpsWorkflow.Arrive` | internal/bluegreen/db_ops_workflow.go:133-146 | A completion waits in its channel, the 24h timer becomes ready and stays so, a request or lock timer is handled at once |
| `CoordinatorWorkflow.DatabaseOpsWorkflow.TakeCompletion` | internal/bluegreen/db_ops_workflow.go:144-165 | The selector takes the first waiting completion, which frees the lock; continue-as-new follows exactly if it was requested |
| `CoordinatorWorkflow.DatabaseOpsWorkflow.TakeTimer` | internal/bluegreen/db_ops_workflow.go:167-184 | The selector takes the ready timer only as long as continue-as-new has not been requested; continue-as-new follows exactly if nothing is active |
| `CoordinatorWorkflow.DatabaseOpsWorkflow.EventLoop` | internal/bluegreen/db_ops_workflow.go:139-185 | Whatever comes in, the loop handles every request, timer and completion in order as the specification does, records every completion, and ends in continue-as-new exactly if that was requested and nothing is active, else blocked with nothing left to take; if the 24h timer is in its inbox it does not end idle; although the fired timer stays ready it goes around exactly once per completion taken and at most once more |
| `CoordinatorWorkflow.Perpetual` | internal/bluegreen/db_ops_workflow.go:26-47 | Run after run, each continuing as new: over any input the chain handles every event in order as the specification does, completions left over included, with as many further runs as the input calls for, and its iterations are at most completions plus runs plus one |
| `Client.TicketWaits` | cmd/blue-green/main.go:197-222 | Between the grant and the start, nothing others do touches the granted ticket |
| `Client.TemporalWorkflowClient.StartDeployment` | cmd/blue-green/main.go:185-233 | What the call meets decides its answer, in both directions: locked exactly if the request reaches the coordinator while a deployment is active; an ID exactly if granted, the answer and the start get through, the ID is free and that is confirmed, and then that deployment is the one running and named by the lock; already there exactly if the ID is taken instead, by an earlier deployment of the same plan that has reported and not returned; any other error else. The lock is taken for good exactly when a grant was not followed by a start |
| `SchemaRegistry.LastOccurrenceWins` | internal/connectors/schema.go:46-59 | A field is known if and only if it occurs, and is as required as its last occurrence says |
| `SchemaRegistry.AcceptedIsReadableIff` | internal/connectors/schema.go:19-22 | An accepted schema can read everything its predecessor wrote if and only if no optional field became required |
| `SchemaRegistry.CompatibleIff` | internal/connectors/schema.go:61-80 | The rule accepts exactly the schemas that lose no field and can read a record with all of the old fields |
| `SchemaRegistry.OptionalMadeRequiredIsAccepted` | internal/connectors/schema.go:66-80 | A schema that makes an optional field required is accepted and cannot read everything its predecessor wrote |
| `SchemaRegistry.IdsAreUnique` | internal/connectors/schema.go:99-104 | Over any history the identifiers are 1 to the counter, each used exactly once over all subjects, and strictly increasing within a subject |
| `SchemaRegistry.LatestIsLastAccepted` | internal/connectors/schema.go:108-117 | The newest version of a subject is its last accepted registration in the history; rejected ones leave no trace |
| `SchemaRegistry.BackwardEvolution` | internal/connectors/schema.go:66-97 | A subject registered only under BACKWARD never loses a field between any two versions, and every later field is optional where it first appears |
| `SchemaRegistry.EveryVersionReadsItsPast` | internal/connectors/schema.go:19-22 | If no step makes a field required, every version reads what every earlier version wrote, not just the previous one |
| `SchemaRegistry.PreflightDecidesNothing` | internal/temporal/activities.go:44-55 | The pre-flight check changes nothing about the subject it is for and nothing about which registrations of it are accepted, in any mode |
| `SchemaRegistry.PreflightLeavesItsMark` | internal/temporal/activities.go:44-55 | What pre-flight looks at and lets through becomes the newest version of the shadow subject and uses up an identifier; what it rejects or skips leaves no trace |
| `SchemaRegistry.PreflightIsRightIff` | internal/temporal/activities.go:44-71 | For a subject with versions, in every mode: everything that passes pre-flight is accepted if and only if the mode is BACKWARD and the latest version of the shadow subject exists and has the field names of the real one's, or the mode is neither empty nor BACKWARD; then the two agree on every schema |
| `SchemaRegistry.NoModeIsNotBackward` | internal/temporal/activities.go:62-65 | For every subject there are a history with the shadow subject in step and a schema that passes pre-flight without a mode and is then rejected |
| `SchemaRegistry.PreflightOfAFirstVersion` | internal/temporal/activities.go:44-55 | A subject without versions passes pre-flight whatever the text and the mode, and its registration is accepted exactly if the text parses |
| `SchemaRegistry.PreflightOfTheEmptyText` | internal/temporal/activities.go:45-47 | The empty text always passes pre-flight; its registration is accepted exactly if the subject's latest version has no fields or the mode is neither empty nor BACKWARD |
| `SchemaRegistry.PreflightPassesWhatRegistrationRejects` | internal/temporal/activities.go:44-55 | For every subject, with BACKWARD or no mode, there is a history and a schema that passes pre-flight and is then rejected |
| `SchemaRegistry.RetriedRegistrationIsAccepted` | internal/temporal/activities.go:58-71 | A registration whose reply was lost is accepted again, under a new identifier |
| `SchemaRegistry.ParseFields` | internal/connectors/schema.go:46-59 | Computes the field map, last occurrence winning; empty text has no fields; what does not parse is an error |
| `SchemaRegistry.CheckBackwardCompat` | internal/connectors/schema.go:66-80 | No error exactly if compatible; an error names a field that was removed, or else one that is new and required |
| `SchemaRegistry.InMemorySchemaRegistry.Register` | internal/connectors/schema.go:82-106 | Accepts exactly what parses and, under BACKWARD, fits the latest version; appends it under a fresh identifier; an error changes nothing |
| `SchemaRegistry.InMemorySchemaRegistry.GetLatest` | internal/connectors/schema.go:108-117 | Text and identifier of the last version, not found exactly if there is none |
| `SchemaRegistry.InMemorySchemaRegistry.ValidateSchemaPolicy` | internal/temporal/activities.go:44-55 | Skips empty subjects, empty texts and subjects without versions; otherwise registers under the shadow subject |
| `SchemaRegistry.InMemorySchemaRegistry.EnsureSchemaSubject` | internal/temporal/activities.go:58-71 | Registers under BACKWARD if no mode is given; an empty subject is skipped |
| `Connectors.PerformOnName` | internal/temporal/session2_activities.go:46-64 | What one attempt does to the presence of its own name in the two registries, and that it does nothing to any other name |
| `Connectors.RegistriesFollowLives` | internal/temporal/session2_activities.go:46-176 | Over any sequence of attempts, also torn ones, each registry knows a name exactly if its life, computed from the attempts on that name alone, says so |
| `Connectors.AgreementIff` | internal/temporal/session2_activities.go:46-176 | The registries know the same names if and only if no name's life is left half by a torn attempt |
| `Connectors.TornCreationDisagrees` | internal/temporal/session2_activities.go:50-62 | For every key a creation torn between its two writes leaves a name that Kafka Connect alone knows |
| `Connectors.RegistriesAgree` | internal/temporal/session2_activities.go:46-176 | Without torn attempts the registries know the same names after every activity |
| `Connectors.HalfCreatedIff` | internal/temporal/session2_activities.go:50-62 | After Kafka Connect has accepted a creation, the store refuses it if and only if a torn deletion left its record behind; never without torn attempts |
| `Connectors.OnlyDeleteRepairs` | internal/temporal/session2_activities.go:46-64 | After a torn creation no activity on the name succeeds and none repairs it, except a deletion, which always does if it is not torn itself |
| `Connectors.StoredStatesFit` | internal/temporal/session2_activities.go:46-176 | Without torn attempts every stored state is UNASSIGNED or Kafka Connect's |
| `Connectors.StatesFollowActs` | internal/temporal/session2_activities.go:46-176 | Over any history, torn attempts included, the state of a name in each registry is the one set by the last act on it that was accepted there, told from the acts alone |
| `Connectors.SucceedsIff` | internal/temporal/session2_activities.go:46-176 | Which activities succeed, in terms of the configuration and the two registries; a creation without a name or class changes nothing |
| `Connectors.SuccessSets` | internal/temporal/session2_activities.go:46-176 | What each successful activity leaves for its name: PAUSED in both registries, RUNNING in both, RUNNING and UNASSIGNED, or nothing; the stored configuration stays |
| `ConnectorActivities.FakeKafkaConnectClient.CreateConnector` | internal/connectors/kafkaconnect_fake.go:35-51 | Creates a running connector exactly if the name is free |
| `ConnectorActivities.FakeKafkaConnectClient.GetConnectorStatus` | internal/connectors/kafkaconnect_fake.go:53-64 | The state, not found exactly for names that do not exist |
| `ConnectorActivities.FakeKafkaConnectClient.DeleteConnector` | internal/connectors/kafkaconnect_fake.go:66-74 | Removes the name and nothing else; no error if there is none |
| `ConnectorActivities.FakeKafkaConnectClient.SetRunState` | internal/connectors/kafkaconnect_fake.go:89-117 | Pauses or resumes exactly a connector that exists |
| `ConnectorActivities.FakeKafkaConnectClient.ListConnectors` | internal/connectors/kafkaconnect_fake.go:76-87 | Every name, once, whatever order the map is visited in |
| `ConnectorActivities.InMemoryConnectorStore.CreateConnector` | internal/store/connector_memory.go:31-41 | Adds a record exactly if its key is free |
| `ConnectorActivities.InMemoryConnectorStore.DeleteConnector` | internal/store/connector_memory.go:80-86 | Removes the key and nothing else; no error if there is none |
| `ConnectorActivities.InMemoryConnectorStore.ListConnectors` | internal/store/connector_memory.go:54-64 | The records of one pipeline, each once and no other |
| `ConnectorActivities.InMemoryConnectorStore.UpdateConnectorState` | internal/store/connector_memory.go:66-78 | Changes the state of exactly one existing record |
| `ConnectorActivities.Session2Activities.CreateConnectorActivity` | internal/temporal/session2_activities.go:46-64 | The two writes, in order, as specified, also if the worker is lost between them; success leaves the connector RUNNING and its record UNASSIGNED, failure leaves the store as it was |
| `ConnectorActivities.Session2Activities.DeleteConnectorActivity` | internal/temporal/session2_activities.go:134-142 | Deletes from both registries, or from Kafka Connect only if torn |
| `ConnectorActivities.Session2Activities.PauseConnectorActivity` | internal/temporal/session2_activities.go:151-159 | Pauses in both registries, in order; success leaves PAUSED in both |
| `ConnectorActivities.Session2Activities.ResumeConnectorActivity` | internal/temporal/session2_activities.go:168-176 | Resumes in both registries, in order; success leaves RUNNING in both |
| `ConnectorActivities.Session2Activities.WaitForConnectorRunningActivity` | internal/temporal/session2_activities.go:80-124 | At most timeout divided by interval plus two polls, with the defaults where zero is given; with a negative interval only the cancellation of its context bounds the polls; a connector that runs and has a record is found at the first poll; it succeeds exactly if the last poll saw RUNNING and the store has the record, which then says RUNNING, and otherwise leaves the store unchanged; it gives up only if that poll saw nothing, FAILED, or RUNNING without a record, or came back after the deadline, or the context was cancelled |
| `Provisioning.RetryAddsUp` | internal/temporal/workflow.go:15-20 | A failed attempt and a retry leave what one activity with the sum of their effects leaves |
| `Provisioning.CompensationIsReverseIff` | internal/temporal/session2_workflow.go:171-200 | Compensation is the exact reverse of creation in the plain saga always, in the CDC saga if and only if the sink was not created yet |
| `Provisioning.StreamsBalance` | internal/temporal/workflow.go:90-121 | The books: streams in the end are those before, plus those made, less those deleted, for every run that deletes only its own and only after creating |
| `Provisioning.SinksBalance` | internal/temporal/workflow.go:90-121 | The same books for sinks |
| `Provisioning.WhatNobodyUndoes` | internal/connectors/fakes.go:61-77 | Captures only accumulate, since stopping one removes nothing; no run adds or removes a pipeline's state or touches another pipeline's |
| `Provisioning.LastMarkDecides` | internal/store/memory.go:93-102 | The marking that ends a run decides the state of an existing pipeline, and a missing one does not come to exist |
| `ProvisioningTheorems.ConservedIff` | internal/temporal/workflow.go:52-121 | For any failure point of either saga, streams and sinks are conserved if and only if as many were deleted as were made, lost replies included; other identifiers are never touched |
| `ProvisioningTheorems.ConnectorConservedIff` | internal/temporal/session2_workflow.go:52-107 | Kafka Connect's names are conserved by a failed CDC run if and only if it failed before the connector, or the failed creation had no effect, or the compensating deletion took effect |
| `ProvisioningTheorems.RecordConservedIff` | internal/temporal/session2_workflow.go:52-107 | The connector store's records are conserved by a failed CDC run if and only if it failed before the connector, or the failed creation did not reach the store, or the compensating deletion did |
| `ProvisioningWitnesses.LostReplyLeavesAStream` | internal/temporal/workflow.go:56-64 | On any resources and for any job, a run in which the reply to the creation of the stream is lost, the sink fails and all compensation succeeds leaves one stream too many |
| `ProvisioningWitnesses.LostReplyLeavesAConnector` | internal/temporal/session2_workflow.go:62-67 | Wherever the connector can be created, a run in which the reply to its creation is lost leaves it in both registries, and no compensation is attempted for it |
| `ProvisioningTheorems.CleanFailureConserves` | internal/temporal/workflow.go:52-121 | If no reply was lost and compensation worked, a failed run leaves streams, sinks, connectors, records and all other pipelines as they were, and an existing pipeline in ERROR |
| `ProvisioningTheorems.RoundTrip` | internal/temporal/session2_workflow.go:25-169 | A successful provision followed by a successful decommission restores Kafka Connect and the connector store, leaves the pipeline DECOMMISSIONED, and restores streams and sinks if and only if as many were deleted as made |
| `ProvisioningSuccess.SuccessLeaves` | internal/temporal/session2_workflow.go:25-107 | A successful provisioning leaves a pipeline that existed before ACTIVE, and a stream and a sink more, exactly one of each if no reply was lost; the plain saga leaves a capture more and no connector, the CDC saga its connector, in neither registry before, RUNNING in both; nothing else changes |
| `ProvisioningSuccess.NothingTooEarly` | internal/temporal/workflow.go:36-84 | In every run nothing is made before spec, policy, schema and source have been dealt with, no sink before the stream and, in the CDC saga, the running connector, no capture before both, and the pipeline is not made ACTIVE before everything is there |
| `ProvisioningSuccess.EarlyFailureChangesNothing` | internal/temporal/workflow.go:36-49 | A run that fails in its first three steps changes nothing and runs nothing more |
| `ProvisioningSuccess.DecommissionLeaves` | internal/temporal/session2_workflow.go:145-169 | A successful decommission, on any resources and with any identifiers, leaves the connector in neither registry, the pipeline DECOMMISSIONED, stream and sink at least once less, or untouched if no identifier was given, and nothing else changed |
| `ProvisioningWorkflows.RemoveFirstCounts` | internal/connectors/fakes.go:104-117 | Splicing the first match out removes one occurrence and no other |
| `ProvisioningWorkflows.FakeStreamProvisioner.EnsureStream` | internal/connectors/fakes.go:93-102 | Appends the pipeline's stream, also if it is there already |
| `ProvisioningWorkflows.FakeStreamProvisioner.DeleteStream` | internal/connectors/fakes.go:104-117 | The loop removes exactly the first match, and nothing if there is none |
| `ProvisioningWorkflows.FakeSinkProvisioner.EnsureSink` | internal/connectors/fakes.go:135-145 | Appends the sink named by type and target |
| `ProvisioningWorkflows.FakeSinkProvisioner.DeleteSink` | internal/connectors/fakes.go:147-160 | The loop removes exactly the first match, and nothing if there is none |
| `ProvisioningWorkflows.FakeCDCProvisioner.StartCapture` | internal/connectors/fakes.go:61-70 | Appends the capture named by database and schema |
| `ProvisioningWorkflows.InMemoryMetadataStore.CreatePipeline` | internal/store/memory.go:59-69 | Adds spec and pending state together, so that the two maps keep the same keys; an existing pipeline is left alone |
| `ProvisioningWorkflows.InMemoryMetadataStore.UpdatePipeline` | internal/store/memory.go:82-91 | Replaces an existing spec and no state |
| `ProvisioningWorkflows.InMemoryMetadataStore.SetPipelineState` | internal/store/memory.go:93-102 | Sets the state of an existing pipeline only |
| `ProvisioningWorkflows.InMemoryMetadataStore.GetPipelineState` | internal/store/memory.go:104-112 | The state, not found exactly for pipelines without one |
| `ProvisioningWorkflows.ProvisioningWorkflow.ExecuteActivity` | internal/temporal/workflow.go:15-20 | At most three attempts, one for the wait, and failure only after all of them; whatever they come to, the resources change as the one log entry it adds says; if nothing is lost it fails only for a reason in the resources |
| `ProvisioningWorkflows.ProvisioningWorkflow.ProvisionPipeline` | internal/temporal/workflow.go:25-88 | Success means eight successful steps in order, the pipeline ACTIVE and one more of each thing, or several if replies were lost; failure at a step means the compensation of that step, or none before the fourth, and the result fields set so far; if nothing is lost it succeeds exactly if the pipeline exists |
| `ProvisioningWorkflows.ProvisioningWorkflow.ProvisionCDCPipeline` | internal/temporal/session2_workflow.go:25-107 | The same for the nine steps of the CDC saga, with the connector RUNNING in both registries; if nothing is lost it succeeds exactly if the pipeline exists and the connector can be created |
| `ProvisioningWorkflows.ProvisioningWorkflow.Compensate` | internal/temporal/session2_workflow.go:172-200 | Which compensating activities run depends on the result fields alone, and they are those of the failed step |
| `ProvisioningWorkflows.ProvisioningWorkflow.DecommissionCDCPipeline` | internal/temporal/session2_workflow.go:145-169 | Deletes connector, sink and stream in this order, empty identifiers skipped, stops at the first failure, and marks the pipeline last; success leaves the connector in neither registry and the pipeline DECOMMISSIONED; if nothing is lost it succeeds exactly if the pipeline exists |
| `ProvisioningWorkflows.FailureConserves` | internal/temporal/workflow.go:90-121 | The fakes, registries and store after a clean failed run are as before, but for captures and the ERROR state |
| `ProvisioningWorkflows.RoundTripRestores` | internal/temporal/session2_workflow.go:145-169 | A decommission that starts where a successful provisioning ended leaves the objects as before the provisioning, and the pipeline DECOMMISSIONED |

## Left out

- SQL, JSON and regular expressions: statements, queries and schemas come parsed. The fake migrator reads `ADD COLUMN IF NOT EXISTS x` as a column named `if` (`internal/bluegreen/migrator_fake.go:67`), so a statement with that clause is not `AddColumn` of `x`, and the dashboard's plan that uses it is not modelled.
- Durations: lock timeouts, the read-only limit, the 24h interval and activity timeouts are events without a time. The read-only timer only detects an overrun; there is no bound on the time spent read-only.
- `PgDatabaseMigrator`, the HTTP Kafka Connect client and the Temporal SDK: foreign systems. A start whose workflow ID is taken is refused with the error that `cmd/blue-green/main.go:227` looks for, whatever option the SDK may want for it; the reply to a completion signal can come before or after the coordinator has processed it. Workflow signals are delivered exactly once, update handlers and callbacks are atomic, and an attempt that was given up does not go on beside its retry.
- Deployment workflows that are cancelled or terminated from outside. They send no completion, so their lock is never released; `ProtocolLiveness.LockIsFreeableIffNotAbandoned` is about executions without that.
- Which of a pending approval and a pending rollback a gate takes: either.
- Several databases: one coordinator is modelled. Deployments of different databases share the namespace of workflow IDs, where a collision is possible.
- Injection hooks and test-only setters of the fakes (`ExecuteSQLFn`, `EnsureStreamFn`, `SetState` and the like), beyond failing and lost attempts.
- Metadata that no branch reads: timestamps, reasons, notes, task and worker details of connectors, tenants, the query handlers.
- Pause and resume workflows: they add nothing to the connector activities they call. HTTP handlers, the dashboard, loggers, metrics and audit decorators are plumbing.
- The schema registry inside the sagas: registration there is a step that succeeds or fails, since compensation does not undo it; its own behaviour is in `SchemaRegistry.dfy`.
- Workflows that interleave in the provisioning part: a saga has the resources to itself, except that connectors change their state while it waits. `ConnectorActivities.Session2Activities.WaitForConnectorRunningActivity` itself allows any change while it sleeps.
- `BuildConnectorConfig`, `DatabaseFingerprint`, `buildSteps` and configuration from the environment: simple.

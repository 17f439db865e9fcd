# gin-bear verification

Dafny models of the parts of gin-bear in which correctness spans operations, runs or
instances, with proofs of what they promise. `dafny verify dfyconfig.toml` checks everything;
the proofs need no settings of their own.

## What is modelled

| files | part of the repository |
|---|---|
| `TaskModel`, `TaskInvariant`, `TaskTheorems`, `TaskEffects`, `TaskOutcomes`, `TaskCounterexamples`, `TaskStore` | the durable task store and its workers (`extensions/agent/tasks`) |
| `Lifecycle` | the strict component lifecycle (`pkg/bear/lifecycle.go`) |
| `Container` | the bean container and its lifecycle entries (`pkg/bear/ioc.go`) |
| `Drain` | handler tracking and the ends of Serve and Shutdown (`pkg/bear/bear.go`, `handler_tracker.go`) |
| `StrictBuild` | the strict build rounds (`pkg/bear/bear.go`) |
| `MigrationModel`, `MigrationRunner` | the migration runner (`pkg/bear/migration.go`) |
| `ToolSchema`, `ToolDeclaration` | tool parameter contracts (`extensions/agent/schema.go`) |
| `ToolStream`, `AgentRun` | streamed answers and the agent run under a budget (`extensions/agent`) |
| `Dispatcher`, `Barrier` | plugin routing and the registration barrier (`pkg/bear/plugin.go`) |
| `Generation` | publishing a generated resource with rollback (`internal/cli`) |

The task store, the migration runner and the barrier are protocols between parties that do
not wait for each other. They are transition systems whose steps are single transactions,
statements or critical sections; the theorems speak about every run. The methods beside them
(`TaskStore.Store`, `MigrationRunner.Database`, `Barrier.RegistrationBarrier`) follow the
source statement by statement and are proved to be runs of those systems, with any steps of
the other parties in between. The other parts are objects whose methods update their fields.
Whatever the environment decides (outcomes of components and tools, failures of statements
and file writes, deaths, expiring contexts, registrations by other goroutines) is an
arbitrary choice or an arbitrary argument, so every statement holds for all of it.

## What the proofs found

- **A write can execute twice under one approval.** `claimCAS` updates the row and then reads
  it back in a second statement (`extensions/agent/tasks/tasks.go:485-504`). A worker that
  stalls between the two can read the row of a later claimant, reservation and nonce included;
  `Reserve` then answers that the intent is already recorded (lines 716-718), or
  `RecordIntent` records it again, and both workers execute. `ExecutedTwice` builds such a run
  for every claimable write.
  Each approval admits one intent in exactly those runs in which no worker acts on a
  read-back row that carries a nonce (`SingleUseIff`).
- **Submit trusts its caller's reservation.** With that check added, a submitted write executes
  at most once per consumed approval in every run exactly when it does not arrive with a
  reservation and no nonce (`BoundedIffMild`); for every claimable write that does,
  `ExecutedTwiceUnlessMild` builds a run. The invariant, fencing and budget conservation
  need no assumption about what is submitted.
- **A task with a negative deadline is never served.** Claim takes rows whose deadline is zero
  or ahead (`extensions/agent/tasks/tasks.go:450`), the sweep those whose deadline is positive
  and past (line 645): a queued row is left to neither exactly when its deadline is negative
  (`QueuedIsServedIff`).
- **A lease renewal can be lost**, because it keeps the version (`RenewalSurvivesIff`).
- **Start can report success without having initialized anything.** A Stop that its deadline
  interrupts before the lifecycle was ever started leaves it started, with no start error
  (`pkg/bear/lifecycle.go:599-612`); the next Start answers from that state (lines 352-355).
  `NeverInitialized` is such a run; over any sequence of calls, a Start without errors has
  made the Init calls due exactly when no Stop was interrupted in state New, or none were due
  (`StartAfter`).
- **The strict build can be sealed over a bean that was never injected.** The seal compares a
  count of beans and a version that the container's own registrations do not raise
  (`pkg/bear/bear.go:2459-2471`). A bean that takes the place of another before the pass that
  follows the snapshot (line 2287) is injected, or reported as a conflict; one that does so
  after that pass has taken its list, and leaves no conflict for its end to find, is sealed
  over, unless something else injects it (`Build` has the exact condition,
  `SealsOverReplacement` a run).
- **A strict container can refuse a bean over one that is gone.** Replacing the bean of an
  interface by one of another concrete type leaves the first in the index by concrete type
  (`pkg/bear/ioc.go:344-353`), until a removal makes the index anew. `SpuriousIff`,
  `BatchRefusedIff` and `IndexStaysCurrentIff` have the exact conditions,
  `RefusedUntilRemoval` a run.
- **The inner loop of strict Stop begins at most one shutdown call per visit**, although it can
  wait twice.
- **A rollback that completes with errors keeps them in reverse order**, unlike a finished Stop.
- **The schema normaliser does downgrade some schemas it accepts**, against its comment
  (`extensions/agent/schema.go:13-18`): const together with enum accepts either, enum or const
  on a non-string is ignored, "required" of an undeclared property is dropped, and a closed
  object without properties accepts anything. `NeverDowngradedIff` gives the exact condition.
  At the root of a tool, type, const and enum beside properties are dropped as well, and
  without properties everything but a single type name is (`extensions/agent/schema.go:37-72`):
  `ToolNeverDowngradedIff` has the condition for whole argument objects.
  A tool with an empty property list is shown to the vendor without a schema but refuses every
  argument (`VendorAgreesIff`).
- **A failed generation can leave its pins in go.mod**, when the snapshot of go.mod could not be
  read (`internal/cli/gen.go:310-311`): `ExecutePlan` has the exact condition,
  `PinsLeftBehind` an example.
- **The run budget can be exceeded by the last turn**, since a silent turn is charged the whole
  reserve. With a vendor whose reports keep to estimate and cap, it is exceeded exactly when
  the last turn was silent and the reserve was more than what was left, which is known before
  the call (`OverspentIff`); `Overspends` is a run.
- **A bare marker is taken for a parameter of any name.** The shape that keeps two plugin routes
  apart forgets names (`pkg/bear/plugin.go:250-258`), so a route with the literal segment ":"
  or "*" is refused beside one with a parameter or catch-all there (`ShapeIff`).
- **Forcing the lock of a live migration runner** breaks the single dirty row (`TwoDirtyRows`).

## Model

| member | source | states |
|---|---|---|
| `TaskInvariant.InvRun` | extensions/agent/tasks/tasks.go:220-918 | every state that any interleaving of submissions, approvals, claims, read-backs, intents, settlements, cancellations, sweeps, recoveries, renewals, reconciliations, crashes and stalls can reach, whatever is submitted, satisfies the invariant: unique ids and tenant keys, versions that identify rows, balanced budgets, approvals that belong to their tasks, audit rows that add up |
| `TaskInvariant.InvStep` | extensions/agent/tasks/tasks.go:220-918 | each single transaction, conditional write or local worker step keeps the invariant of the store |
| `TaskInvariant.TxnSound` | extensions/agent/tasks/tasks.go:335-908 | what each operation writes under its fence is a sound move of one row: the version grows by one except for approvals and lease renewals, money moves between budget, reservation and settled usage only, an approval is consumed with the move it licenses |
| `TaskInvariant.CommitInv` | extensions/agent/tasks/tasks.go:1120-1150 | a sound conditional write keeps the whole invariant, whatever else has happened to other rows |
| `TaskInvariant.BulkInv` | extensions/agent/tasks/tasks.go:628-694 | the set-wide updates of sweep and recovery keep the whole invariant |
| `TaskInvariant.ReadIsCurrent` | extensions/agent/tasks/tasks.go:1120-1150 | a row read earlier that still has the stored version is the stored row, but for its lease and update time |
| `TaskInvariant.CancelIgnoresApproval` | extensions/agent/tasks/tasks.go:592-622 | a cancellation computed from a row read before an approval landed is the one the stored row calls for |
| `TaskTheorems.RowsPersist` | extensions/agent/tasks/tasks.go:485-504 | rows never disappear and versions never go back, over any continuation of a run |
| `TaskTheorems.StaleWriteIsRefused` | extensions/agent/tasks/tasks.go:1120-1150 | a settlement or intent holding another version than the stored one, or meeting a row that is not running, changes nothing |
| `TaskTheorems.Fenced` | extensions/agent/tasks/tasks.go:520-586 | fencing over runs: once a row has left (version v, running), no later Complete, Reserve or RecordIntent that read v or an older version changes the database, however many steps lie between |
| `TaskTheorems.ClaimHasOneWinner` | extensions/agent/tasks/tasks.go:485-504 | of all workers racing for one version of a queued row at most one wins, now and at any later time |
| `TaskTheorems.CompleteSeesTheStoredRow` | extensions/agent/tasks/tasks.go:510-586 | a committed settlement equals Complete applied to the stored row, so it overwrites no other transition; only the lease comes from the read |
| `TaskTheorems.CancelSeesTheStoredRow` | extensions/agent/tasks/tasks.go:592-622 | a committed cancellation equals Cancel applied to the stored row, even when an approval, which keeps the version, fell between read and write |
| `TaskTheorems.IntentSeesTheStoredRow` | extensions/agent/tasks/tasks.go:700-798 | a recorded intent equals the operation applied to the stored row, up to the lease |
| `TaskTheorems.RenewalSurvivesIff` | extensions/agent/tasks/tasks.go:745-762 | RenewLease keeps the version, so its effect can be lost: the stored lease survives a recorded intent exactly when no renewal changed it between the read and the write |
| `TaskTheorems.FinalStays` | extensions/agent/tasks/tasks.go:917-923 | succeeded, failed, canceled and timed-out rows are never written again in any run |
| `TaskOutcomes.SettledRow` | extensions/agent/tasks/tasks.go:536-576 | a settled row is queued again exactly for a retryable failure of known result without a recorded intent and with attempts left, unknown exactly when the result is or an intent is on record, succeeded with the reported result exactly without a failure, and failed otherwise; unknown keeps budget and reservation, and anything else gives the reservation back and charges the usage; attempts and version grow by one and the other columns stay |
| `TaskOutcomes.CompleteOutcome` | extensions/agent/tasks/tasks.go:510-586 | the same of the stored row, whatever happened between the read and the write, with no other row changed |
| `TaskOutcomes.FailedForGood` | extensions/agent/tasks/tasks.go:544-549 | a known failure that may not be retried leaves the row failed in every continuation, and no claim of it ever wins |
| `TaskOutcomes.ResultKept` | extensions/agent/tasks/tasks.go:550-553 | what a success reported stays in the row in every continuation |
| `TaskOutcomes.SettlementsBounded` | extensions/agent/tasks/tasks.go:536-549 | over every run without a reconciliation of it, a task settles at most as often as its attempts allow, counting from where it stands, with one try always allowed, and never once it has ended |
| `TaskOutcomes.IntentNeverRetried` | extensions/agent/tasks/tasks.go:539-541 | over every run without a requeue by an operator, a write with an intent on record is only ever running, unknown or succeeded, never queued again, failed, canceled or timed out |
| `TaskEffects.SweepEffect` | extensions/agent/tasks/tasks.go:628-666 | after a sweep no live task is past its deadline: a running write with an intent on record is unknown with its reservation kept, any other overdue task is timed out, and no other row, approval or audit row is touched |
| `TaskEffects.RecoverEffect` | extensions/agent/tasks/tasks.go:670-694 | after a recovery no running task has an expired lease: with an intent on record it is unknown with its reservation kept, otherwise it is queued again; nothing else is touched |
| `TaskEffects.CancelEffect` | extensions/agent/tasks/tasks.go:592-622 | a committed cancellation leaves a running write with an intent on record unknown and any other row canceled, with its lease gone, and money, nonce and work as they were |
| `TaskEffects.QueuedIsServedIff` | extensions/agent/tasks/tasks.go:448-450 | a queued task that nobody holds is claimable or timed out by the next sweep, and never both, exactly when its deadline is not negative; with a negative one no claim and no sweep ever takes it |
| `TaskEffects.ClaimEffect` | extensions/agent/tasks/tasks.go:485-504 | a claim of an idle worker wins exactly when the row it read had no negative budget and the stored row is queued still in that version; the row then runs for its owner under its lease, and nothing else about it changes |
| `TaskEffects.RenewEffect` | extensions/agent/tasks/tasks.go:745-762 | a renewal moves the lease of the running row of its owner, and nothing else anywhere |
| `TaskEffects.CheckEffect` | extensions/agent/tasks/tasks.go:1032-1056 | a worker is cleared for a write exactly when the approval of the row it holds is consumed, unexpired, under the policy of now and for its tenant, tool and arguments, and live authorization agrees |
| `TaskEffects.ApproveEffect` | extensions/agent/tasks/tasks.go:335-427 | an approval takes effect exactly when the operator is named and not the owner, the approval is open and unexpired, arguments and policy are those it was made for and its task waits; then it is consumed in the operator's name, its task queued, and nothing else changes |
| `TaskEffects.IntentEffect` | extensions/agent/tasks/tasks.go:700-798 | a granted intent leaves a row that already holds its reservation alone, and otherwise moves the amount, which the budget covers, into the reservation under a nonce never drawn before; the worker is licensed for the row's current approval |
| `TaskEffects.ConfirmEffect` | extensions/agent/tasks/tasks.go:810-853 | only a task of unknown result is confirmed, by a named actor and for a usage that is not negative: it succeeds with that result, the reservation is given back and the usage charged and audited, and the nonce stays |
| `TaskEffects.RequeueEffect` | extensions/agent/tasks/tasks.go:861-908 | only a task of unknown result is requeued, by a named actor: reservation and nonce go, and a write waits for a new open approval, good for an hour, for its tenant, tool and arguments under the policy of now |
| `TaskEffects.SubmitEffect` | extensions/agent/tasks/tasks.go:220-287 | a task is stored exactly when tenant and key are given and not taken: under a new id, with the digest of its arguments and three attempts unless more are asked for; a write waits for a new open approval of its own, a read is queued, and nothing stored changes |
| `TaskEffects.DigestIff` | extensions/agent/tasks/tasks.go:203-206 | two argument texts have one digest exactly when they differ in the spaces around them only |
| `TaskTheorems.Conservation` | extensions/agent/tasks/tasks.go:321-843 | in every reachable state budget plus reservation plus settled usage equals the initial budget; for a write the settled usage is the sum of its audit usage outside unknown; every settlement has a claim of its own |
| `TaskTheorems.InitialIsSubmitted` | extensions/agent/tasks/tasks.go:220-287 | the initial budget of that law is what Submit stored |
| `TaskTheorems.InitialStays` | extensions/agent/tasks/tasks.go:220-908 | no operation changes what counts as the initial budget of a task |
| `TaskTheorems.ReachableShape` | extensions/agent/tasks/tasks.go:249-899 | shape of every row reached from submissions without nonce and reservation: queued or waiting has no nonce and no reservation; a reservation means a running or unknown write with a nonce; canceled, failed and timed-out have no nonce |
| `TaskTheorems.ReachableGate` | extensions/agent/tasks/tasks.go:335-427 | in every reachable state a waiting write has an unconsumed current approval, and a queued, running, succeeded, failed or unknown write a consumed one |
| `TaskTheorems.NoDuplicate` | extensions/agent/tasks/tasks.go:220-287 | two tasks of every reachable state differ in tenant or key |
| `TaskTheorems.NoOrphanApproval` | extensions/agent/tasks/tasks.go:294-427 | an unconsumed approval is the current approval of a write that waits for it or was called off |
| `TaskTheorems.LicenceIsApproved` | extensions/agent/tasks/tasks.go:1032-1056 | an intent succeeds only under an approval made for that very task and consumed for its tenant, tool and arguments |
| `TaskTheorems.FirstUseIff` | extensions/agent/tasks/tasks.go:700-798 | after any run from submissions without nonce and reservation: when an intent call succeeds, its approval is used for the first time exactly when the worker holds a row without a nonce |
| `TaskTheorems.SingleUseIff` | extensions/agent/tasks/tasks.go:485-798 | over every run from submissions without nonce and reservation: each approval admits at most one intent call exactly when no worker acted on a read-back row that already carried a nonce |
| `TaskTheorems.ExecutionsBounded` | extensions/agent/tasks/tasks.go:950-996 | in every run in which workers act only on rows read back without a nonce and no write is submitted with a reservation but no nonce, Executor runs of a write never exceed its recorded intents, and those never exceed the approvals consumed for it |
| `TaskCounterexamples.ExecutedTwice` | extensions/agent/tasks/tasks.go:485-504 | for every claimable write submitted without nonce and reservation, a run with one consumed approval and two executions: the read after the winning claim is a separate statement and can return another worker's row with its nonce, which the intent call records again |
| `TaskCounterexamples.ExecutedTwiceUnlessMild` | extensions/agent/tasks/tasks.go:716-718 | for every claimable write submitted with a reservation but no nonce, a run in which workers act only on rows read back without a nonce, with one consumed approval and two executions: Reserve takes the submitted reservation for its own and records no intent, so recovery requeues the row |
| `TaskCounterexamples.BoundedIffMild` | extensions/agent/tasks/tasks.go:220-287 | of one submitted write: it executes at most once per consumed approval in every run in which workers act only on rows read back without a nonce, exactly when it was not submitted with a reservation but no nonce |
| `TaskStore.Store.UpdateWhere` | extensions/agent/tasks/tasks.go:1120-1150 | the conditional write commits exactly when id, version and status match the stored row, and changes nothing otherwise |
| `TaskStore.Store.Complete` | extensions/agent/tasks/tasks.go:510-586 | Complete with any steps of other instances between its read and its write is one run of the transition system; which errors leave the store alone; the returned row is the stored row; undisturbed, it is settled as the outcome asks: requeued exactly for a retryable failure of known result without a recorded intent and with attempts left, unknown exactly when the result is or an intent is on record, succeeded with the result exactly without a failure, failed otherwise |
| `TaskStore.Store.Settle` | extensions/agent/tasks/tasks.go:536-576 | the field-by-field computation of the settled row, and the status, result, error, money, lease and columns left alone that the outcome asks for |
| `TaskStore.Store.CallOff` | extensions/agent/tasks/tasks.go:600-616 | the field-by-field computation of the canceled row keeps the task's identity and ends it |
| `TaskStore.Store.Cancel` | extensions/agent/tasks/tasks.go:592-622 | Cancel with its retry loop is a run of the transition system; success means a terminal stored row, a terminal row is left alone, a missing one is an error, and undisturbed it takes one step |
| `TaskStore.Store.RecordIntent` | extensions/agent/tasks/tasks.go:700-798 | Reserve and RecordIntent with interleaved steps of others, before the write and before the row is read again, are runs of the transition system; the worker is licensed exactly when the call succeeds, and undisturbed that is exactly when the stored row passes the checks |
| `TaskStore.Store.Claim` | extensions/agent/tasks/tasks.go:434-504 | Claim's loop over candidates, each with its own race, is a run of the transition system; the worker holds a claim exactly when it won; undisturbed, it wins the oldest claimable row if there is one and no budget is negative |
| `TaskStore.Store.ClaimCAS` | extensions/agent/tasks/tasks.go:485-504 | the flip is one step, and wins exactly when id, version and status of the row read are still the stored ones |
| `TaskStore.Store.Oldest` | extensions/agent/tasks/tasks.go:434-484 | the candidate taken is one with the smallest creation time |
| `TaskStore.Store.Recover` | extensions/agent/tasks/tasks.go:670-694 | Recover is two set-wide steps with the steps of others in between |
| `TaskStore.Store.SweepTimeouts` | extensions/agent/tasks/tasks.go:628-666 | the sweep is one atomic step over all expired rows |
| `TaskStore.Store.GetByTenantKey` | extensions/agent/tasks/tasks.go:1170-1177 | a stored task is found exactly when tenant and key are taken, and it is that task |
| `TaskStore.Store.Submit` | extensions/agent/tasks/tasks.go:220-287 | a blank tenant or key is refused, a taken key returns the stored task without a change, and otherwise the new row and its approval are stored, or the winner of a lost race is returned |
| `TaskStore.Store.Approve` | extensions/agent/tasks/tasks.go:335-427 | only an open, unexpired approval for these arguments and this policy, and an operator other than the owner, pass; then, whatever others do in between, the approval is consumed and its task queued in one step as long as it is still open and its task waits, and otherwise nothing changes |
| `TaskStore.Store.RenewLease` | extensions/agent/tasks/tasks.go:745-762 | the lease moves exactly for the owner of a running row |
| `TaskStore.Store.ConfirmUnknownAs` | extensions/agent/tasks/tasks.go:810-853 | an unknown row is reconciled exactly when an actor is named and the usage is not negative |
| `TaskStore.Store.RequeueUnknownAs` | extensions/agent/tasks/tasks.go:861-908 | an unknown row is requeued, a write under a fresh approval, exactly when an actor is named |
| `TaskStore.Store.RunOnce` | extensions/agent/tasks/tasks.go:950-996 | a whole pass, with the steps of others between all of its own, is a run of the transition system that leaves the worker idle and records an execution exactly when the Executor ran; it ends with the settlement of the Executor's outcome, or of a refusal without usage, retryable exactly when the hook failed; undisturbed, a pass that can claim settles its task |
| `TaskStore.Store.Prepare` | extensions/agent/tasks/tasks.go:968-993 | approval check, live authorization and intent of one pass are a run without executions; the worker is licensed exactly when all succeed, and undisturbed it goes on with the running row as stored |
| `TaskStore.Store.Attempt` | extensions/agent/tasks/tasks.go:959-993 | from the claim to the Executor: the pass goes on exactly when the hook succeeds and it holds a read or a licensed write; undisturbed, its version is the stored one of the running row |
| `TaskStore.Store.Finish` | extensions/agent/tasks/tasks.go:994-996 | executing and settling, with the steps of others before the settlement and inside it, are a run that ends with this settlement if Complete gets to write; undisturbed, the row is no longer running |
| `Lifecycle.Lifecycle.TryAdd` | pkg/bear/lifecycle.go:265-291 | registration is accepted exactly before startup and before it is sealed; an accepted component is appended as one active entry of its kind, started already exactly when it is prestarted, and a refused one changes nothing |
| `Lifecycle.Lifecycle.Retire` | pkg/bear/lifecycle.go:205-257 | a component leaves the list unless it already runs, and then only its initialization is given up; refused once startup has begun or registration is sealed |
| `Lifecycle.Lifecycle.SealRegistration` | pkg/bear/lifecycle.go:123-130 | after sealing the list of components stays as it is |
| `Lifecycle.Lifecycle.StopContextAware` | pkg/bear/lifecycle.go:647-683 | for every behaviour of the attempts: at most one shutdown call is begun per visit, the entry ends stopped, stopped with its error, or resumable, as the ended attempt calls for, shutdowns stay in reverse order, and the visit is incomplete only when its context has expired |
| `Lifecycle.Lifecycle.StopEntry` | pkg/bear/lifecycle.go:647-711 | one visit to any kind of component begins at most one shutdown call, keeps reverse order, and leaves the state its ended call requires; a legacy shutdown is begun at most once and resumed by later calls |
| `Lifecycle.Lifecycle.StopEntries` | pkg/bear/lifecycle.go:620-645 | a pass completes exactly when every started component is terminally stopped, and then reports the terminal errors it met, last component first; it stops short only when its context has ended, at a component whose turn it was, and has touched nothing registered before it |
| `Lifecycle.Lifecycle.TerminalStopError` | pkg/bear/lifecycle.go:742-750 | the terminal errors of all components in registration order |
| `Lifecycle.Lifecycle.Stop` | pkg/bear/lifecycle.go:582-618 | over any sequence of calls with their own contexts: a Stop whose context stays alive ends stopped with every started component terminally stopped; a finished Stop reports exactly the terminal errors and later calls repeat that answer; one interrupted by the end of its context leaves the lifecycle started, to be resumed |
| `Lifecycle.Lifecycle.Start` | pkg/bear/lifecycle.go:341-409 | from state New a Start without errors has called Init once on each active initializer in registration order; a failed one names the end of its context or the one Init call that failed, with its error, stops what had started, completely if the rollback context stays alive, and ends reset and retryable exactly when rollback met no error and nothing was prestarted, and otherwise not retryable, with its error kept; over all states, a Start without errors has made exactly the Init calls due if and only if no Stop was interrupted in state New, or none were due |
| `Lifecycle.StartAfter` | pkg/bear/lifecycle.go:341-618 | over any sequence of registrations, retirements, sealing, Start and Stop calls on a new lifecycle, a final Start without errors has made exactly the Init calls due if and only if no Stop was interrupted before any Start, or none were due |
| `Lifecycle.NeverInitialized` | pkg/bear/lifecycle.go:599-612 | a concrete run in which Start reports success and has initialized nothing: a prestarted component, and a Stop with an expired context before the Start |
| `Lifecycle.Lifecycle.StartComponents` | pkg/bear/lifecycle.go:374-409 | the loop over the components calls Init exactly on the active initializers up to the first failure, or on all of them, and rolls back otherwise; it gives up before a component only when its context has ended, and after one only when its Init call failed |
| `Lifecycle.Lifecycle.RollbackStart` | pkg/bear/lifecycle.go:411-449 | rollback leaves exactly one of the two shapes: all entries reset with state New, or a started or stopped lifecycle that keeps the rollback errors, started only when the rollback context has ended |
| `Lifecycle.Lifecycle.Reset` | pkg/bear/lifecycle.go:451-460 | every entry is put back to the state before the start |
| `Lifecycle.Lifecycle.CallAll` | pkg/bear/lifecycle.go:341-618 | any sequence of Start and Stop calls after a start: a failed start is reported by every later Start, terminal components are never touched again, each component is attempted at most once per call and a legacy one at most once in all, a finished stop is repeated |
| `Lifecycle.OneAtATime` | pkg/bear/lifecycle.go:620-736 | shutdown calls never overlap: at most one runs in the whole list |
| `Lifecycle.PassErrorsReversed` | pkg/bear/lifecycle.go:430-440 | a rollback that completes with errors keeps exactly the terminal errors, in reverse order |
| `Lifecycle.InitializersExact` | pkg/bear/lifecycle.go:374-401 | the list of Init calls holds each active initializer once, in ascending registration order, and nothing else |
| `Lifecycle.SettledKeepsSound` | pkg/bear/lifecycle.go:713-728 | attempts that finish on their own at any moment keep order, soundness and whose turn it is |
| `Lifecycle.EndAttemptOk` | pkg/bear/lifecycle.go:665-682 | an ended attempt leaves a sound entry, terminal unless the attempt ended with its own context's error |
| `Lifecycle.BeginAttemptOk` | pkg/bear/lifecycle.go:652-659 | a begun attempt leaves a sound entry with exactly one call running |
| `Lifecycle.ResetKeeps` | pkg/bear/lifecycle.go:429-460 | resetting after a clean rollback loses no running attempt and no prestarted component |
| `Container.Registry.Register` | pkg/bear/ioc.go:334-359 | registerLocked and the lifecycle's registerBean agree after every call: accepted exactly when the bean is already there, or registration is open and strict mode finds no other instance in its index by concrete type; refused calls change neither side |
| `Container.Registry.SetBatch` | pkg/bear/ioc.go:281-332 | a batch is all or nothing: accepted exactly when registration is open and none of its beans meets another instance of its concrete type, registered under that type, in the batch, or else in the index, which may be stale; it then adds exactly its beans |
| `Container.Registry.PlanBatch` | pkg/bear/ioc.go:293-316 | the checks on copies accept exactly the compatible batches, and what is planned is exactly the new beans |
| `Container.Registry.CommitBatch` | pkg/bear/ioc.go:317-323 | committing keeps the order free of duplicates and equal to the registered types, and reports no new conflict |
| `Container.Registry.RegisterBatch` | pkg/bear/lifecycle.go:156-171 | every bean of the batch gets its lifecycle entry, and the registration maps stay inverse |
| `Container.Registry.Remove` | pkg/bear/ioc.go:424-445 | removal takes the type from both sides and out of the order, and afterwards a conflict is reported for exactly the concrete types with two registered instances and the index holds registered instances only |
| `Container.Rebuild` | pkg/bear/ioc.go:447-464 | the rebuilt index knows every registered bean and only registered ones, for each concrete type the one registered last, and its conflicts are exact |
| `Container.NoConflictOneInstance` | pkg/bear/ioc.go:519-534 | no reported conflict implies one instance per concrete type |
| `Container.SpuriousIff` | pkg/bear/ioc.go:338-343 | a refusal over the indexed instance is spurious, no other instance of the concrete type being registered, exactly when the indexed one is registered under no type, unless a conflict is reported for the type |
| `Container.ConflictsIff` | pkg/bear/ioc.go:338-343 | without a reported conflict, what the index refuses is exactly a bean that contradicts a registered instance or meets one that is registered no more |
| `Container.BatchRefusedIff` | pkg/bear/ioc.go:301-316 | without reported conflicts for its types, a batch passes the checks exactly when it contradicts neither what is registered nor itself and meets no indexed instance that is registered no more |
| `Container.IndexStaysCurrentIff` | pkg/bear/ioc.go:344-353 | a registration leaves an unregistered instance in the index exactly when it replaces, under an interface, the last registration of an indexed bean of another concrete type |
| `Container.RefusedOverNothing` | pkg/bear/ioc.go:334-359 | a concrete sound container without conflicts that holds no bean of a concrete type and refuses one, alone and in a batch |
| `Container.RefusedUntilRemoval` | pkg/bear/ioc.go:281-464 | the same through the operations of a strict container, in which any removal makes the index anew and the bean is then accepted |
| `Container.PutOk` | pkg/bear/ioc.go:344-353 | a committed registration keeps order, bean domain and concrete index in step, and the order of what was registered before |
| `Container.PutReports` | pkg/bear/ioc.go:338-353 | while the index is current, a registration reports a conflict for its concrete type exactly when another instance of it is registered, and for no other type |
| `Container.ReleaseOk` | pkg/bear/lifecycle.go:180-257 | a type that leaves its entry keeps one entry per instance, inverse registration maps, and only running entries without types |
| `Container.ReleaseKeeps` | pkg/bear/lifecycle.go:205-257 | a type that leaves takes its entry out of the list exactly when it was the last one and the component does not run; the other components keep their order, and none is started or stopped |
| `Container.JoinOk` | pkg/bear/lifecycle.go:185-202 | a type that joins an entry, old or new, keeps one entry per instance and inverse registration maps |
| `Container.JoinKeeps` | pkg/bear/lifecycle.go:185-202 | a type that joins adds its bean at the end of the list exactly when it is new; a prestarted bean counts as running from then on, and nothing else is started or stopped |
| `Container.SetBeanOk` | pkg/bear/lifecycle.go:173-203 | setBeanLocked maps the type to the bean's entry and keeps the lifecycle's side sound |
| `Drain.Tracker.Begin` | pkg/bear/handler_tracker.go:23-34 | a handler begins exactly when the tracker is open, and the idle channel is closed exactly when no handler is active |
| `Drain.Tracker.End` | pkg/bear/handler_tracker.go:36-45 | when a handler ends, the idle channel is still closed exactly when no handler is active, and no channel is closed twice |
| `Drain.Tracker.StopAccepting` | pkg/bear/handler_tracker.go:75-82 | a closed tracker stays closed and keeps its handlers |
| `Drain.App.Wait` | pkg/bear/handler_tracker.go:47-64 | on a closed tracker a wait succeeds exactly when no handler is active and none can begin, with any handlers coming and going meanwhile; an idle tracker, or one whose handlers leave before the deadline, is never waited for in vain |
| `Drain.App.WaitAll` | pkg/bear/bear.go:730-759 | on closed trackers a successful wait for HTTP and active gRPC handlers means none is active and none can begin, and it succeeds when they are idle or leave before the deadline |
| `Drain.App.Acquire` | pkg/bear/bear.go:615-630 | serving begins at most once and never after a shutdown was requested |
| `Drain.App.ApplyAll` | pkg/bear/bear.go:1997-2083 | a kept result is answered again without a second attempt; a failed build stops the lifecycle once and is kept, and a failed start is kept unless it may be retried |
| `Drain.App.Serve` | pkg/bear/bear.go:421-556 | Serve begins exactly when nothing has served or shut down before, and stops the lifecycle at most once, the stop after a failed build included, only when no handler is active and none can ever begin; it does stop it when it could not listen, or when the handlers leave and the servers are drained in time |
| `Drain.App.DrainAndStop` | pkg/bear/bear.go:510-535 | the end of Serve stops the lifecycle only when all handlers are gone for good; drained in time it does so exactly when they are, which holds when none was active or all leave before the deadline |
| `Drain.App.Shutdown` | pkg/bear/bear.go:668-728 | Shutdown stops the lifecycle only when all is quiet, leaves that to Serve while it runs, and does stop an idle application, or one whose handlers leave before the deadline |
| `Drain.ServeAndShutdown` | pkg/bear/bear.go:421-728 | over any sequence of ApplyAll, Serve and Shutdown calls with handlers interleaved: once the lifecycle has begun to stop, no handler is active and none ever begins again |
| `StrictBuild.Builder.Build` | pkg/bear/bear.go:2234-2298 | success is a fixpoint: every module not built with its plugin was built exactly once, every class of every mount exactly once, those registered during the build included; no error-returning registration landed between the stability snapshot and the seal, and the number of beans stayed the same; every registered bean was injected exactly when none that an uncounted call brought in after the last pass had taken its list was left uninjected; at most 32 rounds ran, and it gives up only when some step failed or registrations arrived in every one of 32 rounds; nothing was built without an injection pass before it |
| `StrictBuild.Builder.BuildModules` | pkg/bear/bear.go:2244-2264 | one round builds exactly the modules registered when its batch was taken, plugins apart, each once and right after an injection pass of its own, while others are registered |
| `StrictBuild.Builder.BuildMounts` | pkg/bear/bear.go:2269-2281 | one round builds every class of the mounts registered when its batch was taken, each once, after an injection pass of this round; unless a registration arrives meanwhile, none is left |
| `StrictBuild.Builder.InjectContainerBeans` | pkg/bear/bear.go:2329-2339 | a successful pass has injected every bean on the list taken at its begin, with no conflict reported at its end, whatever lands meanwhile |
| `StrictBuild.Builder.InjectStrictBeans` | pkg/bear/bear.go:2317-2327 | the pass after the snapshot does that too, with handlers and fairings, and ends without a reported conflict |
| `StrictBuild.Builder.Conclude` | pkg/bear/bear.go:2283-2295 | a stable round that seals has injected every bean its last pass listed, and no counted registration has landed since the snapshot; one that neither seals nor fails has met a registration |
| `StrictBuild.Builder.Snapshot` | pkg/bear/bear.go:2452-2457 | stable means exactly that everything registered has been built exactly once and nothing without work is left to go through; what lands later is counted from here |
| `StrictBuild.Builder.Seal` | pkg/bear/bear.go:2459-2471 | sealing happens exactly when everything registered has been gone through, no counted registration has landed since the snapshot, and there are as many beans as then |
| `StrictBuild.SealsOverReplacement` | pkg/bear/bear.go:2287-2293 | a concrete build sealed with a registered bean that was never injected: it took the place of another after the pass that follows the snapshot |
| `MigrationModel.InvRun` | pkg/bear/migration.go:205-858 | over every interleaving of runners, failures, lost acknowledgements and crashes, with careful operators: the lock excludes, the marker is sound, at most one row is dirty |
| `MigrationModel.InvStep` | pkg/bear/migration.go:605-858 | each single statement, crash or careful operator action keeps lock exclusion, marker soundness and the single dirty row |
| `MigrationModel.MarkerAlwaysSound` | pkg/bear/migration.go:676-858 | a clean history row means its up SQL is fully in the schema, no row means none of it is, and at most one row is dirty, in every state a careful run reaches |
| `MigrationModel.UpTakesEffect` | pkg/bear/migration.go:690-735 | a transactional up that reaches the database adds the clean row under its name and all of its SQL, and a marking statement the dirty row, acknowledged or not; its runner goes on exactly when it is acknowledged |
| `MigrationModel.UpEnds` | pkg/bear/migration.go:736-749 | acknowledged up SQL is wholly in the schema, and the statement that clears the mark leaves the clean row |
| `MigrationModel.DownTakesEffect` | pkg/bear/migration.go:781-840 | a transactional down that reaches the database removes row and effect, and a marking statement makes the row dirty, acknowledged or not |
| `MigrationModel.DownEnds` | pkg/bear/migration.go:841-858 | acknowledged down SQL is wholly gone from the schema, and the removing statement drops the row |
| `MigrationModel.LockTakesEffect` | pkg/bear/migration.go:605-688 | the lock is taken exactly when it is free, released by its owner alone, and the dirty check lets a runner on exactly over a clean history |
| `MigrationModel.OperatorsTakeEffect` | pkg/bear/migration.go:362-462 | a finding makes the dirty row clean or drops it, a forced lock is free, and a death or a hand repair leaves lock and history alone |
| `MigrationModel.UntakenChangesNothing` | pkg/bear/migration.go:605-858 | a statement that does not reach the database changes no table |
| `MigrationModel.OthersKeep` | pkg/bear/migration.go:605-651 | while a runner is at work nobody else changes the lock, the history or the schema |
| `MigrationModel.DirtyBlocks` | pkg/bear/migration.go:676-688 | once a row is left dirty, no sequence of Up and Down calls, crashes and forced unlocks runs migration SQL or touches the history until it is resolved |
| `MigrationModel.ResolveSoundIff` | pkg/bear/migration.go:405-462 | resolving a dirty row keeps the marker sound exactly when the operator's answer is what the schema holds |
| `MigrationModel.ForceUnlockExcludesIff` | pkg/bear/migration.go:362-392 | forcing a held lock keeps exclusion exactly when its owner has gone |
| `MigrationModel.TwoDirtyRows` | pkg/bear/migration.go:362-392 | a concrete run in which forcing the lock of a live runner leaves two rows dirty |
| `MigrationRunner.Database.Exec` | pkg/bear/migration.go:690-858 | a statement preceded by any steps of others, and interrupted by the runner's death, is still a step of the protocol |
| `MigrationRunner.Database.ApplyUp` | pkg/bear/migration.go:690-720 | success adds the clean row and the whole effect; any other exit, a crash included, leaves nothing, all of it, or a dirty row; when statements do not fail or go unacknowledged and the runner lives, a migration without a row is applied |
| `MigrationRunner.Database.ApplyUpNonTransactional` | pkg/bear/migration.go:722-749 | with marking, SQL and clearing as separate statements: success adds the clean row and the whole effect; any other exit, a crash included, leaves nothing, all of it, or a dirty row; without failures it succeeds |
| `MigrationRunner.Database.ApplyDown` | pkg/bear/migration.go:781-811 | success removes row and effect; any other exit leaves the row, no row, or a dirty row; without failures it succeeds |
| `MigrationRunner.Database.ApplyDownNonTransactional` | pkg/bear/migration.go:824-859 | with marking, SQL and removal as separate statements: success removes row and effect; any other exit leaves the row, no row, or a dirty row; without failures it succeeds |
| `MigrationRunner.Database.RollBack` | pkg/bear/migration.go:317-340 | the plan is made over the clean history and then carried out: nothing is touched unless every version to go has a loaded file with down SQL, and without failures exactly then all of them go |
| `MigrationRunner.Database.Enter` | pkg/bear/migration.go:605-688 | a runner gets past lock and dirty check only as owner of the lock over a wholly clean and truthful history; without failures, exactly when the lock was free and no row dirty when it asked |
| `MigrationRunner.Database.Leave` | pkg/bear/migration.go:628-651 | a release that is reported leaves no lock |
| `MigrationRunner.Database.UpAll` | pkg/bear/migration.go:242-254 | the loop brings up the missing migrations in list order and stops at the first failure, with at most that one in doubt |
| `MigrationRunner.Database.Up` | pkg/bear/migration.go:205-255 | success leaves every listed migration applied under its name, the history otherwise as it was, every row clean and truthful, and the lock released; a failure leaves a prefix plus at most one migration in doubt; when no statement fails or goes unacknowledged and the runner lives, it succeeds exactly when the lock was free, no row was dirty and every applied version had its listed name when the lock was asked for |
| `MigrationRunner.UpgradedExact` | pkg/bear/migration.go:242-254 | what Up adds: old rows stay, every listed version has a row, new rows are clean and carry a listed name |
| `MigrationRunner.Database.LatestApplied` | pkg/bear/migration.go:756-779 | the newest versions, newest first, at most as many as asked for and fewer only if there are no more |
| `MigrationRunner.LatestUnique` | pkg/bear/migration.go:756-779 | which versions a rollback takes is settled by the history alone |
| `MigrationRunner.Database.PlanRollback` | pkg/bear/migration.go:317-334 | a plan exists exactly when every version to go has a loaded file of its name with down SQL |
| `MigrationRunner.LoadedVersion` | pkg/bear/migration.go:317-320 | a migration is found for a version exactly when one is listed with it |
| `MigrationRunner.Database.DownAll` | pkg/bear/migration.go:335-340 | the plan is rolled back newest first, stopping at the first failure |
| `MigrationRunner.Database.Down` | pkg/bear/migration.go:273-341 | success removes exactly the newest versions asked for, with their effects; everything is checked before any SQL runs; a failure leaves a prefix plus at most one migration in doubt; when no statement fails or goes unacknowledged and the runner lives, it succeeds exactly when the lock was free, no row was dirty and every version to go had a loaded file of its name with down SQL |
| `MigrationRunner.Database.ForceUnlock` | pkg/bear/migration.go:362-392 | only the owner seen first is unlocked, and a lock replaced meanwhile is preserved, also when either statement fails, the removal is not acknowledged or the caller dies; without failures it succeeds exactly when there was no lock or that owner still holds it |
| `MigrationRunner.Database.ForceMigrationState` | pkg/bear/migration.go:405-462 | with any steps of others before the lock is taken and between all statements, and the caller's death in between: an answer that is truthful when the lock is taken turns the dirty row clean or removes it, after success no row is dirty, and the schema is never touched; without failures it succeeds exactly when the lock is free and the row dirty |
| `MigrationRunner.FindingLasts` | pkg/bear/migration.go:676-688 | over a row left dirty with no migration in progress, a truthful finding stays truthful until the lock is taken, whatever runners do, unless somebody else resolves or repairs meanwhile |
| `ToolSchema.NeverDowngradedIff` | extensions/agent/schema.go:13-18 | "rejected, never downgraded" for one parameter: every value the check accepts is valid under the declared schema exactly when const and enum are on strings and agree, "required" names declared properties, and objects without properties are open |
| `ToolSchema.NothingLost` | extensions/agent/schema.go:168-242 | for a faithful schema everything that passes the check is valid, nested objects and array elements included |
| `ToolSchema.SampleInvalid` | extensions/agent/schema.go:87-151 | for an accepted schema that is not faithful the sample value is invalid under it |
| `ToolSchema.SampleChecks` | extensions/agent/schema.go:168-242 | for every accepted schema a full sample value passes the check, whatever the schema says beyond it |
| `ToolSchema.NothingRefused` | extensions/agent/schema.go:168-242 | a schema that names its types and closes its objects refuses nothing valid |
| `ToolSchema.MirrorWellFormed` | extensions/agent/schema.go:128-149 | the normaliser gives parameters to objects only and elements to arrays only |
| `ToolSchema.RenderNormalises` | extensions/agent/schema.go:268-304 | round trip: normalising the rendered schema gives the mirror back |
| `ToolSchema.RenderTight` | extensions/agent/schema.go:286-304 | a rendered schema names all types and closes all objects, and is enforced faithfully exactly when enums are on strings |
| `ToolSchema.RenderAgrees` | extensions/agent/schema.go:168-304 | with enums on strings, the check accepts exactly the values valid under the rendered schema |
| `ToolSchema.VendorAgreesIff` | extensions/agent/schema.go:157-266 | what the vendor is shown and what the runner accepts agree on all argument objects exactly when the tool has a parameter and its enums are on strings |
| `ToolSchema.Normalise` | extensions/agent/schema.go:87-151 | the normaliser's loops fill exactly the mirror, or fail exactly when it is undefined |
| `ToolSchema.RenderParams` | extensions/agent/schema.go:268-284 | the rendering loop gives exactly the object schema |
| `ToolSchema.RenderParam` | extensions/agent/schema.go:286-304 | the rendering of one parameter, nested objects and elements included, is exactly the specified schema |
| `ToolSchema.MirrorParts` | extensions/agent/schema.go:87-151 | the parts of an accepted schema: types, options in order, children with their required marks |
| `ToolSchema.RefusedParts` | extensions/agent/schema.go:74-126 | exactly what makes the normaliser refuse |
| `ToolSchema.EnforcedIs` | extensions/agent/schema.go:97-126 | a schema is enforced as a type exactly when it names that known type alone, as a word or in a list, or names none beside properties and the type is object |
| `ToolSchema.DeclaredIs` | extensions/agent/schema.go:37-72 | a declaration is absent without properties unless it names a type other than object, is accepted exactly when each property is, and its parameters are then exactly the properties, required where listed; everything else is refused |
| `ToolDeclaration.ToolNeverDowngradedIff` | extensions/agent/schema.go:37-72 | "rejected, never downgraded" for a whole tool: all arguments that pass before the tool runs are valid under its declaration exactly when the declared type allows objects, the properties are faithful, "required" names only them, and a const or enum beside them lists every argument object they leave; without properties, exactly when nothing else is declared |
| `ToolDeclaration.FaithfulHolds` | extensions/agent/schema.go:37-72 | under such a declaration every argument object that passes is valid, keyword by keyword |
| `ToolDeclaration.UnfaithfulShows` | extensions/agent/schema.go:37-72 | any other accepted declaration has an argument object that passes and is invalid under it |
| `ToolDeclaration.ValuesExact` | extensions/agent/schema.go:168-242 | where a parameter accepts finitely many values, these are all of them |
| `ToolDeclaration.ProductsExact` | extensions/agent/schema.go:157-242 | the argument objects over finitely many choices are exactly those that pass |
| `ToolDeclaration.NthChecks` | extensions/agent/schema.go:168-242 | an endless parameter accepts each value of a sequence of its own |
| `ToolDeclaration.NthOutside` | extensions/agent/schema.go:168-242 | no finite list holds all of that sequence |
| `ToolDeclaration.ValidParts` | extensions/agent/schema.go:37-72 | what a declaration says of an argument object, keyword by keyword |
| `ToolStream.RoundTripIff` | extensions/agent/openai.go:388-465 | streaming round trip: however calls are cut into fragments and interleaved, pump and collector give the original list back exactly when no two calls share a non-empty id, and the text is the concatenation of the deltas |
| `ToolStream.MergedIs` | extensions/agent/openai.go:448-463 | what is held for an index is what the fragments of that index say: their names and arguments in order, and the last id they name |
| `ToolStream.PumpedCalls` | extensions/agent/openai.go:389-403 | calls are sent whole, once, by ascending index, after all text |
| `ToolStream.CallsCollect` | extensions/agent/http.go:406-414 | whole calls with distinct ids are kept as they are; otherwise some are fused |
| `ToolStream.SharedIdsFuse` | extensions/agent/http.go:406-414 | calls that share an id are collected as one, with names and arguments in the order sent, and calls without an id are kept one by one |
| `ToolStream.ToldCollects` | extensions/agent/http.go:397-417 | the collected text is the concatenation of what was forwarded |
| `ToolStream.UsageCollects` | extensions/agent/openai.go:422-432 | the collected usage, which a streamed turn is charged by, is the one reported last before the end mark, and there is none exactly when none was reported |
| `ToolStream.ReportsStandAlone` | extensions/agent/openai.go:422-435 | text and calls beside a usage report, or without a choice, are not looked at |
| `ToolStream.ExpirySilencesCalls` | extensions/agent/openai.go:404-408 | a context that expires before the end mark and before the last line silences every call, with the text and usage scanned by then sent; otherwise it makes no difference |
| `ToolStream.AscendingUnique` | extensions/agent/openai.go:390-394 | the flush order is the one ascending list of the indexes |
| `ToolStream.FlushCalls` | extensions/agent/openai.go:389-403 | the flush sends the calls by ascending index up to the point where the consumer closes, and leaves nothing behind otherwise |
| `ToolStream.PumpSSE` | extensions/agent/openai.go:375-473 | the pump sends exactly its specified chunks, cut off where the consumer closes and nowhere else; an expired context ends the stream without sending any call |
| `ToolStream.CollectStream` | extensions/agent/http.go:384-421 | the collector returns the merged message, or nothing for a broken stream, and forwards exactly the text |
| `AgentRun.LoopsAgree` | extensions/agent/http.go:322-381 | Run and RunStream take the same course and end with the same result, messages, spend and executions whenever the streams of the conversations the plain run meets merge to its answers |
| `AgentRun.BudgetHolds` | extensions/agent/runner.go:60-238 | over every model, tool and cancellation behaviour: spend before every vendor call is below the budget with room for estimate and cap, rounds and executions per tool are capped, and what goes beyond the budget is spent by the last call, by no more than its charge exceeds its estimate and cap |
| `AgentRun.OverspentIff` | extensions/agent/runner.go:60-238 | with a vendor whose reports stay within estimate and cap, the total exceeds the budget exactly when the last call stayed silent although the reserve was more than what was left before it, and then by less than the reserve |
| `AgentRun.Overspends` | extensions/agent/tools.go:214-227 | a concrete run of one silent answer that spends more than its budget |
| `AgentRun.RoundsEnd` | extensions/agent/runner.go:74-115 | every run ends in one way only: text, error, or a budget or tool ending, and spend beyond the budget ends it |
| `AgentRun.RunTakesCourse` | extensions/agent/runner.go:74-115 | over every model, tool and context: the vendor calls of a run follow each other as conversations, none is made after the context was found expired, every answer is charged, the tools run are exactly those of the calls served, in order, and the run ends as its last reply, the budget, the tools or the context demand |
| `AgentRun.InvokeAllServes` | extensions/agent/runner.go:96-111 | each call is served with one message that answers its id with what the tool said; serving ends early exactly at a call whose failure names the budget or a cancellation, or whose tool was called too often |
| `AgentRun.InvokeAllRan` | extensions/agent/runner.go:196-238 | the tools run for an answer are those of the calls whose tool would run, in order, the last one only within its cap |
| `AgentRun.HeardEndsWithText` | extensions/agent/http.go:384-421 | a streamed run that is not cut short has forwarded its text last |
| `AgentRun.InvokeSound` | extensions/agent/runner.go:196-238 | a tool runs once per charge up to its cap, and only then counts |
| `AgentRun.InvokeAllSound` | extensions/agent/runner.go:96-111 | serving all calls of an answer keeps executions within the caps and ends the run at the first budget or cancellation error |
| `AgentRun.Allowance` | extensions/agent/runner.go:121-173 | a turn is made exactly when the budget covers spend, estimate and one token more; its cap is then the largest up to the configured one that fits |
| `AgentRun.WithDefaults` | extensions/agent/tools.go:136-165 | all nine limits are positive after defaults, and a budget that has them all is kept |
| `AgentRun.Ledger.ChargeTokens` | extensions/agent/tools.go:214-227 | a silent turn is charged the reserve; the ledger is exhausted exactly when some charge went over the budget |
| `AgentRun.Ledger.ChargeCall` | extensions/agent/tools.go:230-238 | the call is counted and allowed exactly within its cap |
| `AgentRun.Gate.BeginRun` | extensions/agent/tools.go:195-211 | a run is admitted exactly below both caps, and the in-flight counts are those of the open runs |
| `AgentRun.Gate.Release` | extensions/agent/tools.go:206-210 | a release frees exactly the slot of its run |
| `AgentRun.Admit` | extensions/agent/runner.go:274-296 | a run is admitted exactly for a known user below both caps whose context has not ended; every other exit leaves no slot taken |
| `AgentRun.InvokeOne` | extensions/agent/runner.go:196-238 | one call charges before it executes and returns the specified message, execution mark and error |
| `AgentRun.Serve` | extensions/agent/runner.go:96-111 | the loop over an answer's calls is the specified one |
| `AgentRun.EstimateTokens` | extensions/agent/runner.go:178-190 | the estimate is a quarter of contents, calls and framing |
| `AgentRun.PlainTurn` | extensions/agent/runner.go:121-152 | the checks of a plain turn give the specified allowance, the vendor is asked exactly when there is one, and the usage handed on is what the answer reports |
| `AgentRun.StreamAllowance` | extensions/agent/runner.go:156-173 | the checks before a streaming turn, a second copy of the same arithmetic, give the same specified allowance |
| `AgentRun.Run` | extensions/agent/runner.go:60-115 | the plain loop is the specified run, it happens exactly when it is admitted, and its slot is freed at every exit; in terms of the model and the tools: the first call is made with the input, each later one with the conversation before, the answer, and for each of its calls in order one message that answers its id with what the tool gave; each answer is charged its report or the reserve; a run that is neither failed nor cut short returns the content of its last answer, which has no calls; every other end has its cause |
| `AgentRun.RunStream` | extensions/agent/http.go:322-381 | the streaming loop is the specified run over merged streams, with the same admission and in the same terms of model and tools; what the caller hears is the text of every stream it was given, in order |
| `Dispatcher.PluginDispatcher.Match` | pkg/bear/plugin.go:159-186 | the answer is that of the most specific registered route that matches, static shortcut included, or none when none matches: at the first segment where another matching route differs in kind, the winner has a literal for its parameter or catch-all, or a parameter for its catch-all |
| `Dispatcher.MoreSpecificIsFiner` | pkg/bear/plugin.go:188-210 | of two routes that match one path, the more specific has, at the first segment where they differ in kind, a literal against a parameter or catch-all, or a parameter against a catch-all |
| `Dispatcher.MatchIff` | pkg/bear/plugin.go:212-236 | a route matches exactly the paths whose segments are its literals and are not empty at its parameters, with more segments only for a catch-all at its end |
| `Dispatcher.CatchAllValue` | pkg/bear/plugin.go:218-224 | a catch-all stands for the rest of the path, with its slash |
| `Dispatcher.ShapeIff` | pkg/bear/plugin.go:250-258 | two paths have one shape exactly when they are alike segment by segment: the same text, or the same marker with a name or without |
| `Dispatcher.NormalizeIs` | pkg/bear/plugin.go:242-248 | a normalized path is a slash and what is left of the path without the spaces around it and then the slashes around it |
| `Dispatcher.AnswerUnique` | pkg/bear/plugin.go:159-186 | that answer is a function of the registered routes: neither registration order nor stale or repeated order entries matter |
| `Dispatcher.WinnerUnique` | pkg/bear/plugin.go:177-183 | at most one route wins a path, with one handler and one list of parameters |
| `Dispatcher.CandidatesDiffer` | pkg/bear/plugin.go:89-97 | two registered routes that match one path always differ in specificity |
| `Dispatcher.EqualRankEqualShape` | pkg/bear/plugin.go:250-258 | equal specificity plus a match forces equal shape |
| `Dispatcher.AnswerRebuilds` | pkg/bear/plugin.go:212-236 | substituting the returned parameters into the route rebuilds the request path, and they carry the route's names in order |
| `Dispatcher.FillRebuilds` | pkg/bear/plugin.go:212-236 | filling the parameters matched from any segment on rebuilds the rest of the path |
| `Dispatcher.StaticWins` | pkg/bear/plugin.go:164-166 | the static shortcut returns the maximum the general rule would |
| `Dispatcher.StaticAnswers` | pkg/bear/plugin.go:164-175 | a static route matches exactly its own path |
| `Dispatcher.MoreSpecificTotal` | pkg/bear/plugin.go:203-210 | of two different specificities exactly one is the greater |
| `Dispatcher.MoreSpecificTransitive` | pkg/bear/plugin.go:203-210 | specificity is transitive |
| `Dispatcher.PluginDispatcher.RegisterE` | pkg/bear/plugin.go:69-104 | a route is refused exactly when another path of its shape is registered; otherwise exactly it is added or replaced |
| `Dispatcher.PluginDispatcher.Unregister` | pkg/bear/plugin.go:106-117 | exactly the route goes, and its shape is free again |
| `Dispatcher.BestDynamic` | pkg/bear/plugin.go:167-185 | the loop over the order finds the most specific of the listed routes |
| `Dispatcher.JoinSplit` | pkg/bear/plugin.go:238-240 | splitting a path loses nothing |
| `Barrier.InvRun` | pkg/bear/plugin.go:267-354 | in every interleaving of registrations and closers at most one closer drains, it holds the transition, and a reported close happened once with nothing in flight |
| `Barrier.CommitsOnce` | pkg/bear/plugin.go:345-352 | the commit runs at most once in every run, and only with no registration in flight |
| `Barrier.ClosedForever` | pkg/bear/plugin.go:279-287 | after a successful close no registration ever begins |
| `Barrier.ReportedCloseHolds` | pkg/bear/plugin.go:299-354 | a close that returned without error leaves the barrier closed in every continuation |
| `Barrier.BlockedOnlyDrains` | pkg/bear/plugin.go:279-297 | while blocked, the registrations in flight only decrease |
| `Barrier.CancelHandsOver` | pkg/bear/plugin.go:337-343 | a cancelled close reopens the barrier, and any waiting closer can take over |
| `Barrier.EnterOutcome` | pkg/bear/plugin.go:299-353 | a new closer answers at once at a closed barrier without a second commit, waits unwoken while another holds it, and takes an open one, committing there and then exactly when nothing is in flight; with an ended context it fails and leaves the barrier alone |
| `Barrier.WaitersFollow` | pkg/bear/plugin.go:311-329 | when the closer that holds the barrier finishes, whoever waits for it returns without an error and without a second commit |
| `Barrier.DrainFinishes` | pkg/bear/plugin.go:331-352 | a draining closer finishes once the registrations in flight have ended |
| `Barrier.RegistrationBarrier.BeginRegistration` | pkg/bear/plugin.go:279-287 | a registration begins exactly while the barrier is not blocked |
| `Barrier.RegistrationBarrier.EndRegistration` | pkg/bear/plugin.go:289-297 | a registration that ends is a step of the protocol |
| `Barrier.RegistrationBarrier.TryClose` | pkg/bear/plugin.go:311-353 | the head of the close loop is a step of the protocol, and says when it committed |
| `Barrier.RegistrationBarrier.DrainOn` | pkg/bear/plugin.go:331-352 | the wake-up of a draining closer is a step of the protocol, committing exactly when nothing is in flight |
| `Generation.Project.ExecutePlan` | internal/cli/gen.go:270-354 | all or nothing, with a failure at any step: success publishes exactly the plan; without failures it succeeds exactly when there is no such package, no migration pair and go.mod can be rewritten; after a failure whose undoing works, the package is as before, and all files are exactly when the pins had not changed go.mod or its snapshot could be read; no temporary file or staging directory is left that can be removed |
| `Generation.PackageHolds` | internal/cli/gen.go:288-295 | the published package holds the listed names and no others, each with the contents listed last for it |
| `Generation.PublishedHolds` | internal/cli/gen.go:326-350 | file by file: migration pair, go.mod, manifest and registry have what the plan holds for them, and are left alone where it has nothing |
| `Generation.Project.Finish` | internal/cli/gen.go:305-351 | after the package is published: success writes exactly the plan's files, and a failure whose undoing works leaves the files as before except for a changed go.mod without a snapshot |
| `Generation.PinsLeftBehind` | internal/cli/gen.go:309-324 | a concrete failed generation that leaves its pins in go.mod: the snapshot could not be read, which is ignored, and registration failed |
| `Generation.Project.WriteMigration` | internal/cli/migration.go:300-323 | the pair is written exactly when neither file exists and no step fails, and what was written is exactly what undoing may remove |
| `Generation.Project.ApplyPins` | internal/cli/plan.go:443-482 | pins succeed exactly when go.mod is absent or readable, parseable and writable, and touch nothing else |
| `Generation.Project.Register` | internal/cli/gen.go:490-508 | manifest and registry change together, or the manifest is restored |
| `Generation.Project.WriteAtomic` | internal/cli/gen.go:529-564 | with a failure at any of directory, temporary file, mode, write, sync, close and rename: the path holds all of the new contents or what it held before, and no temporary file is left unless it cannot be removed |
| `Generation.Project.FillTemp` | internal/cli/gen.go:546-559 | mode, contents, sync and close touch the temporary file only, which holds all the contents if they succeed |
| `Generation.Project.Publish` | internal/cli/gen.go:274-304 | the package appears whole, exactly when staging and the rename succeed and there was none; otherwise nothing of it stays, the staging directory included if it can be removed |
| `Generation.UndoneIs` | internal/cli/gen.go:318-325 | undoing gives the files of before, except for a changed go.mod without a snapshot |

## Left out

Of the repository: HTTP, gRPC, WebSocket, Redis, Casbin and tracing internals, configuration,
code templates, the compatibility lifecycle and `route_tree.go`, which are foreign libraries,
text processing, or would only add easy members. Of the parts that are modelled:

- Integers are unbounded: 64-bit counters and token sums do not wrap around.
- Time is an argument or an arbitrary choice; backoff, heartbeat periods and deadlines are not durations.
- SQL text, placeholder rebinding, isolation below one statement or transaction, table creation and upgrade are not modelled; tables are maps, and a transaction is one step.
- Task ids, nonces and lock owners are always fresh; SHA-256 is injective; argument text is trimmed of ASCII spaces only.
- Task store: the retry of `transact` under lock contention, and hooks other than the one before the Executor; liveness of Claim is not claimed, since an oldest row with a negative budget makes it return an error.
- Lifecycle: callers that wait for a running Start or Stop are modelled as calling afterwards; a recovered panic is an error; a component passed to `TryAdd` is not also a bean; re-registration of a retired component is in `Container` only.
- `Lifecycle.Lifecycle.Start`: the error of a failed rollback is a list of problems, not their joined text.
- Container: beans are pointers, so the same instance is always recognised; beans registered through `TryAdd` have no registration map and are not part of `Container`.
- Drain: hijacked connections, listeners and the HTTP and gRPC servers' own shutdown; the two waits of `waitActiveHandlers` run one after the other; two overlapping Shutdown calls are one call with the trackers closed by others.
- `Drain.App.Serve`: that the HTTP handler is not called directly, without a listener, is assumed; ApplyAll calls that overlap are one attempt.
- Strict build: what injection does to a bean, the targets of injection other than beans, and modules registered for a plugin while it is loading; loading is over when the build begins, which the barrier provides.
- Migration: `LoadSQLMigrations` and its file names, dialect inference and the non-transactional directive are given as properties of a migration; versions are ranks in the database's order; a migration's SQL does not commit inside a transaction by itself.
- Tool schemas: assertion keywords other than type, const, enum, required, properties, additionalProperties and items (minimum, pattern and the like) are neither refused nor enforced by the source and are not modelled; `additionalProperties` is either false or absent; error texts and which of several errors comes first; numbers are reals, so NaN and infinities do not occur.
- Streaming: removal of thinking blocks, and the decoding of lines; an error sent to the consumer is a broken stream.
- Agent run: audit and metrics records, and truncation of long tool output; strings are counted in characters; a tool error is what its text says about budgets and cancellation; negative usage reports do not occur.
- Dispatcher: the HTTP method is taken as already trimmed and upper-cased, handlers are numbers, and only ASCII spaces are trimmed.
- Barrier: the commit is counted, not described; a waiting closer that is woken and cancelled at once may do either.
- Generation: directories left behind by a failed run, file modes, symbolic-link checks, planning and rendering, and the generation lock, which is why the manifest is the one snapshotted.

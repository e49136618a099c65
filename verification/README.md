# Verification model of the company execution core

This project models, in Dafny 4.11, the parts of the repository that must survive a crash at any moment, and proves what
they guarantee over whole runs.

**The worker, the controller and the money.** A worker process writes a durable journal, asks the controller for a money
permit, calls a paid provider and ships its journal to the controller as receipts. Either side may die between any two
steps. `WorkerProtocol` and `WorkerRuns` state this as a machine over moves of the worker, the controller, the provider,
the owner and the rest of the company; `WorkerSafety`, `WorkerTheorems`, `WorkerTools` and `WorkerResults` prove the
invariants and the guarantees of every run. `WorkerReports` and `WorkerRecovery` prove what a recovery may rely on and
what it settles; `WorkerLimits` and `WorkerCorrections` hold the runs that reach the protocol's limits.
`WorkerVerdicts` says how a recovery ends an attempt, `WorkerPermits` when a worker may call and start.
`WorkerAdmission` puts any number of workers beside the allowances of their goal and the fences of their attempts.
`Engine` gives the execution loop, company commands, start and recovery as imperative methods whose every step is a move
of that machine; wherever they wait the others make arbitrary moves and the process may die, and the machine itself lets
it die between any two moves. `JournalService` and `AdapterService` give the rows they work on. `Money`, `Ledger` and
`LedgerService` hold prices, permits, reservations and the period budget in integer micros, `Bills` what each call is
charged; the worker protocol contains that ledger, so a permit is the same row in both.

**Attempts and receipts.** `Execution`, `Receipts` and `ExecutionService` model claims, fences, dispatch and the inbox
that applies receipts contiguously; `Claims` and `Deliveries` say what each of them leaves in the rows.

**Releases.** `ReleaseHistory`, `Supervisor`, `SupervisorResults`, `SupervisorRuns`, `SupervisorLimits` and
`SupervisorService` model birth, rollback, deletion and recovery as sequences of durable writes into lineage, pointer
and release, the process dying after any of them. `Ancestry` says which rollbacks there are, `Births` and `Guards` what
is admitted and what comes of it.

**Allowances and migration.** `Progress` and `ProgressService` model the call and attempt allowances that gate a worker's
calls; `Migration` and `MigrationService` the copy of candidate chains into a new generation. `Evaluations`,
`Allowances` and `Placements` say what is decided, admitted and shared, `Inheritance` what a new generation inherits.

Code that changes rows is a class whose methods are proved equal to a function of the rows before; theorems are about
those functions, over every input and every run. A transaction that throws leaves the rows as they were. Hashes are
injective, so a request stands for its hash; identifiers are positions in tables.

## What the code does differently from what it promises

Where a promised property is false of the code, the model keeps the code, a concrete run shows the failure, and a lemma
gives the exact condition.

- *A suspended attempt has nothing of unknown outcome.* True of calls. For tools it fails when the journal breaks off
  while it is read: the catch at `apps/server/src/services/company_worker_adapter.ts:200-204` clears the flag of the
  unknown tool but keeps an earlier suspension (`SuspensionCanHideATool`, `SuspendsOverUnknownToolExactlyWhen`).
- *Receipts may arrive in any order.* A receipt waiting behind a terminal one makes the delivery that would apply it
  throw, and the receipts before it are lost with it (`OrderImmaterialExactly`, `OrderCanMatter`).
- *A rollback leaves a state recovery can work with.* `rollback` lacks the guard `birth` and `rollbackTo` have; let in
  over something unfinished, it makes every recovery throw from its first write on
  (`RollbackStrandsExactlyWhenUnfinished`, `StrandedRun`).
- *So does a birth.* `birth` does not look for interrupted deletions: admitted over one, it makes every recovery throw
  unless it wrote nothing or failed and was taken back (`BirthStrandsExactlyOverADeletion`, `StrandedDeletionRun`).
- *An unused grant is released.* Exactly when its row was never marked sent, so not the one made for a retry, whose row
  keeps the permit of the first call: its money stays held and the attempt waits for the owner
  (`UnusedGrantReleasedExactlyWhenUnmarked`, `SecondGrantStaysHeld`, `RecoveryCanMissAGrant`).
- *The format of an answer is corrected once.* The event that records it is a second transaction
  (`apps/server/src/execution/company_worker_engine.ts:74-75`): a process that dies between them corrects again
  (`CorrectionsExactly`, `FormatCanBeCorrectedTwice`).
- *A scope has sixty model calls by default.* The window is opened, with the check for calls left, after the call was
  charged, in one transaction: the last call of an allowance is never granted
  (`apps/server/src/services/company_worker_adapter.ts:116-131`, `NewCallIsChargedExactlyBelowTheLast`,
  `CallsStayBelowTheAllowance`).
- *The journal is applied completely by recovery.* Unless a bill was settled by hand to another amount, or a response
  reports more cached than prompt tokens (`ReplayCompletesExactlyWhenPayable`, `ReplayCanStop`).

## Model

| member | source | states |
|---|---|---|
| WorkerResults.UnsentPermitsWereNeverDelivered | apps/server/src/services/company_worker_adapter.ts:171-206 | In every run from a claimed attempt, with any crashes of worker and controller, a permit whose call was not proved unsent exists and is not `NOT_SENT` |
| WorkerResults.MoneyAtStakeStaysHeld | apps/server/src/services/company_model_ledger.ts:62-83 | In every run the reservations of possibly delivered, unsettled calls are contained in the company's held sum |
| WorkerResults.OneUnprovenCallPerStep | apps/server/src/execution/company_worker_engine.ts:44-67 | Of two calls of one step, the earlier is proved unsent, over any number of crashes and resumes |
| WorkerResults.CallsAreBounded | apps/server/src/execution/company_worker_engine.ts:44-67 | An attempt makes at most `maxSteps * (notSentRetries + 1)` provider calls, each on a step below `maxSteps` and with a transport number within the retries |
| WorkerResults.OpenCallBlocksForReview | apps/server/src/services/company_worker_adapter.ts:207-219 | While a permit of the attempt is pending without a response, recovery blocks the attempt as `CALL_OUTCOME_UNKNOWN` and releases the launch; never suspends it |
| WorkerVerdicts.RecoveryEndsExactly | apps/server/src/services/company_worker_adapter.ts:171-219 | At any point of any run and whatever it delivers and settles first, a concluded recovery leaves an attempt that was over as it is, and ends one that its journal ends as the first such event says. Otherwise it fails it exactly when no journal with an identity could be read, the first permit was never granted and no call is open; suspends it exactly when nothing is open and a reason of the controller was read or the worker was not finished, for the reason read; and else blocks it over an open call, a tool of unknown outcome, or a worker that failed |
| WorkerVerdicts.DiagnosisIsTheVerdict | apps/server/src/services/company_worker_adapter.ts:207-216 | The same of the decision alone, from rows, grants, calls and events |
| WorkerPermits.PermitIsAnsweredExactly | apps/server/src/services/company_worker_adapter.ts:111-132 | A worker is granted a permit exactly while automation is on, nothing holds it and the attempt is not over, and only the prelaunch permit, one there is money for, or one already answered, the first two always; a refusal changes nothing |
| WorkerPermits.GrantsAreAskedFor | apps/server/src/services/company_worker_adapter.ts:111-132 | In every run a grant is made only then, to a worker that asked, and as one grant of the present epoch |
| WorkerPermits.StartsExactly | apps/server/src/services/company_worker_adapter.ts:63-105 | A worker is started exactly when its launch waits, no process and no request of it is left, automation is on and the attempt is not over |
| WorkerRecovery.RecoverySettlesExactly | apps/server/src/services/company_worker_adapter.ts:185-220 | At any point of any run, of a granted call that a recovery through every row and grant finds open: it ends `NOT_SENT` exactly when its row was never marked sent, its row is proved unsent, or an applied event says so; it gets a response exactly when an applied event carries it; otherwise it stays pending with its money in the held sum, and a concluded recovery leaves the attempt blocked as `CALL_OUTCOME_UNKNOWN` unless it had ended or the journal ends it |
| WorkerRecovery.FullRecoveryResolves | apps/server/src/services/company_worker_adapter.ts:185-220 | After a concluded recovery that applied the whole journal, every call it found open is unsent, answered or left to the owner exactly as rows and journal say, and a first permit never granted is `NOT_SENT` |
| WorkerRecovery.UnusedGrantReleasedExactlyWhenUnmarked | apps/server/src/services/company_worker_adapter.ts:190-193 | A granted permit of which the journal says nothing is `NOT_SENT` after such a recovery if and only if its row was never marked sent; otherwise it stays pending, its money held, for the owner |
| WorkerRecovery.SecondGrantStaysHeld | apps/server/src/services/company_worker_adapter.ts:185-220 | Whatever a recovery does, whole or broken off, with deliveries and conclusion, the row of a second grant that no event mentions is unchanged: while it is open its money is in the held sum, and a concluded recovery leaves the attempt blocked |
| WorkerRecovery.UngrantedFirstPermitIsReleased | apps/server/src/services/company_worker_adapter.ts:205-206 | Any recovery that reaches a first permit never granted ends with it `NOT_SENT` |
| WorkerReports.RunKeepsReports | apps/server/src/execution/company_worker_journal.ts:36-53 | In every run each resolved call has exactly one kind of event in the journal, the one its row states, a row still sent has none; an applied answer is stored with its permit, and an applied proof that a call was not sent has closed it |
| WorkerLimits.RecoveryCanMissAGrant | apps/server/src/services/company_worker_adapter.ts:190-206 | A concrete run from a claimed attempt to a second grant that made no call, and the whole recovery after which it is still pending, its money held and the attempt blocked |
| WorkerCorrections.CorrectionsExactly | apps/server/src/execution/company_worker_engine.ts:70-77 | In every run the corrections of the answer format are exactly those whose step was taken and not recorded before the worker died, and at most one more: the recorded one, or the one about to be |
| WorkerCorrections.FormatCanBeCorrectedTwice | apps/server/src/execution/company_worker_engine.ts:74-75 | A concrete run from a claimed attempt that corrects two answers, its process dying between the step and the event |
| WorkerAdmission.CallsStayBelowTheAllowance | apps/server/src/services/company_worker_adapter.ts:111-132 | In every life of any number of attempts with crashes on all sides, the workers under one scope together make at most as many provider calls as the scope was charged with, in its present window and in those the owner closed; the charges of the present window stay strictly below its `maxModelCalls` |
| WorkerAdmission.NothingClosedWithoutReset | apps/server/src/services/company_progress_service.ts:93-121 | Until the owner resets its window, all workers under one scope together make fewer calls than its `maxModelCalls` |
| WorkerAdmission.NewCallIsChargedExactlyBelowTheLast | apps/server/src/services/company_progress_service.ts:81-98 | A call with a new key that its missing fact admits is charged if and only if after it one more would be left, the window being positive |
| WorkerAdmission.EndedAttemptGetsNoGrant | apps/server/src/services/owner_automation_gate.ts:148-156 | In any run after an attempt is over, its grants and its state stay as they are, whatever its worker, restarts or the owner do |
| WorkerAdmission.SupersededAttemptGetsNoGrant | apps/server/src/services/company_execution_service.ts:46-67 | In every run of claims and receipts an attempt with a newer one for its task is over for good, and its worker is granted nothing more |
| WorkerResults.AppliedIsAJournalPrefix | apps/server/src/services/company_worker_adapter.ts:142-156 | In every run the events applied by the controller are a prefix of the worker's journal, in order and once each; every acknowledged event is in the inbox as it was written |
| WorkerResults.AppliedOnlyGrows | apps/server/src/services/company_worker_adapter.ts:142-156 | Later states only extend the applied events and the journal |
| WorkerResults.EventApplies | apps/server/src/services/company_worker_adapter.ts:157-170 | A journaled event can be applied if and only if its permit still takes that response |
| WorkerResults.EventsAreIndependent | apps/server/src/services/company_worker_adapter.ts:157-170 | Applying one journaled event neither enables nor disables another |
| WorkerResults.ReplayCompletesExactlyWhenPayable | apps/server/src/services/company_worker_adapter.ts:186-189 | After recovery has delivered the journal again, everything is applied if and only if every event not yet applied could be |
| WorkerLimits.ReplayCanStop | apps/server/src/services/company_worker_adapter.ts:186-189 | A concrete run from a claimed attempt after which a journaled answer cannot be applied, the owner having settled its call to another amount |
| WorkerResults.ToolsTakeEffectAtMostOnce | apps/server/src/execution/company_worker_engine.ts:79-101 | In every run a tool other than `save_artifact` takes effect at most once |
| WorkerResults.SynchronousEffectIffReceipt | apps/server/src/services/company_tool_service.ts:141-154 | In every run the effect of a synchronous company command is committed if and only if its receipt of success is |
| WorkerResults.ReplaysReturnTheStoredReceipt | apps/server/src/services/company_tool_service.ts:132 | A stored receipt never changes in later states, and the journal of the worker can hold no other result |
| WorkerResults.RepeatedCommandReturnsItsReceipt | apps/server/src/services/company_tool_service.ts:138-139 | In every later state, executing a stored operation again returns the stored receipt to the same tool and arguments and a conflict to any others, and its effect, at most one, is not repeated |
| WorkerResults.SuspendedLeavesNothingOpen | apps/server/src/services/company_worker_adapter.ts:176-219 | Until the next start a suspended attempt has no pending permit without a stored response and, unless its journal could not be read, no started tool without a receipt |
| WorkerRecovery.SuspendsOverUnknownToolExactlyWhen | apps/server/src/services/company_worker_adapter.ts:185-220 | At any point of any run with a started tool of unknown outcome, a recovery, whatever it delivers and settles first, ends in a suspension if and only if its reading broke off after an earlier suspension reason, the first call was granted, no call is left open and nothing it applied ends the attempt; the tool is still unknown then |
| WorkerLimits.SuspensionCanHideATool | apps/server/src/services/company_worker_adapter.ts:200-214 | A concrete run from a claimed attempt to a suspended one with a started command of unknown outcome |
| WorkerResults.ClaimCreates | apps/server/src/services/company_execution_service.ts:46-67 | In any state of the company's money, a claim whose first permit is granted is a state in which every run theorem starts |
| WorkerResults.HoldStopsGrants | apps/server/src/services/owner_automation_gate.ts:116-119 | Once a bill has raised the safety hold no permit and no grant is created by anyone, across restarts, until the owner acknowledges it |
| WorkerResults.RunKeepsInv | apps/server/src/execution/company_worker_engine.ts:39-121 | The invariant that links journal rows, grants, permits, provider calls, tools and stops holds in every run |
| WorkerTheorems.NextKeepsSafe | apps/server/src/execution/company_worker_journal.ts:36-53 | Every move of worker, controller, provider and owner keeps the invariant over rows, grants, permits and calls |
| WorkerTheorems.NextKeepsDelivery | apps/server/src/services/company_worker_adapter.ts:142-156 | Every move keeps the applied events a prefix of the journal and never takes an applied event back |
| WorkerTheorems.NextKeepsStop | apps/server/src/services/company_worker_adapter.ts:207-219 | Every move keeps what a recorded stop promises about launch and attempt |
| WorkerTools.NextKeepsTools | apps/server/src/services/company_tool_service.ts:133-156 | Every move keeps tool rows, command rows, receipts and effects consistent |
| Engine.CompanyWorkerHost.ExecuteCompanyWorker | apps/server/src/execution/company_worker_engine.ts:30-121 | The whole life of a process is a run of the protocol. It ends dead; or suspended, exactly for a reason of the controller, which is journaled; or with a terminal checkpoint. If the attempt was not finished before, the loop itself ends it completed or blocked, and an exception ends it blocked exactly when a call or tool is in doubt, the provider refused too often or progress is exhausted, and failed exactly for an answer that stayed malformed or anything else, the last event saying which and why |
| Engine.CompanyWorkerHost.Begin | apps/server/src/execution/company_worker_engine.ts:40-43 | A finished attempt is not begun again; otherwise the start is in the journal, and nothing was called |
| Engine.CompanyWorkerHost.AuthorizeAndRun | apps/server/src/execution/company_worker_engine.ts:89-100 | A tool that may run ends with its result, run or failed; the worker stops otherwise |
| Engine.CompanyWorkerHost.Conclude | apps/server/src/execution/company_worker_engine.ts:103-109 | The first end of an attempt is written with its event and stays |
| Engine.CompanyWorkerHost.ExecuteStep | apps/server/src/execution/company_worker_engine.ts:44-107 | One step ends at the next checkpoint, at a terminal one, or stopped in a state from which the last event can be written |
| Engine.CompanyWorkerHost.RunSteps | apps/server/src/execution/company_worker_engine.ts:44-108 | The loop ends with a terminal checkpoint of its own: completed with a reply, blocked without one or at the step limit; or an exception stops it. A step whose call is in doubt, or was proved unsent too often, stops it with that reason and without another call |
| Engine.CompanyWorkerHost.CallModel | apps/server/src/execution/company_worker_engine.ts:47-67 | Brings the row of the step to its response; a row found sent or unknown stops the worker as a call in doubt, one proved unsent too often as not sent, without another call; a row with a response makes none |
| Engine.CompanyWorkerHost.Attempt | apps/server/src/execution/company_worker_engine.ts:51-66 | One turn of the retry loop makes exactly one call and one attempt more, within the retries; the row has its response exactly when that call was delivered |
| Engine.CompanyWorkerHost.PrepareRetry | apps/server/src/execution/company_worker_engine.ts:52-55 | A row proved unsent is prepared again and nothing else changes; exactly beyond the retries the loop stops, as not sent |
| Engine.CompanyWorkerHost.Authorize | apps/server/src/execution/company_worker_engine.ts:56-58 | The worker goes on only with a permit for the present step, its journal unchanged |
| Engine.CompanyWorkerHost.Send | apps/server/src/execution/company_worker_engine.ts:59-60 | The row is marked sent with the granted permit and one more attempt, and one call is made under that permit |
| Engine.CompanyWorkerHost.Settle | apps/server/src/execution/company_worker_engine.ts:60-65 | The row ends with a response, proved unsent, or unknown, and the journal grows by exactly the answer or failure event of that step and permit |
| Engine.CompanyWorkerHost.Transport | apps/server/src/execution/company_worker_engine.ts:59-66 | One transport makes one call and uses up one attempt; the call is delivered if the row has its response and proved unsent otherwise |
| Engine.CompanyWorkerHost.Operate | apps/server/src/execution/company_worker_engine.ts:80-101 | One operation ends with its result in the journal, from wherever its row was left; results already there are kept, and a finished operation changes nothing |
| Engine.CompanyWorkerHost.Recollect | apps/server/src/execution/company_worker_engine.ts:84-88 | A tool started by an earlier process ends done, its journaled result being the one the controller has stored, or the worker stops |
| Engine.CompanyWorkerHost.Execute | apps/server/src/execution/company_worker_engine.ts:96-100 | However it ends, the tool is marked started; unless the worker stops, its result is journaled |
| Engine.CompanyWorkerHost.RunStarted | apps/server/src/execution/company_worker_engine.ts:98-99 | Running a started tool leaves the journal unchanged and ends with a result or stopped |
| Engine.CompanyWorkerHost.FailTool | apps/server/src/execution/company_worker_engine.ts:89-94 | A tool whose missing fact is exhausted fails without running |
| Engine.CompanyWorkerHost.Operations | apps/server/src/execution/company_worker_engine.ts:78-101 | Every operation of an answer has its result, and the model step is as it was |
| Engine.CompanyWorkerHost.CorrectFormat | apps/server/src/execution/company_worker_engine.ts:70-77 | A correction goes on only if allowed, not journaled before and within the steps; it moves the checkpoint and is then journaled |
| Engine.CompanyWorkerHost.CloseStep | apps/server/src/execution/company_worker_engine.ts:102-107 | The attempt ends exactly when a reply or an answer without operations asks for no continuation, completed exactly with a reply; otherwise the checkpoint takes the new messages |
| Engine.CompanyWorkerHost.Leave | apps/server/src/execution/company_worker_engine.ts:110-119 | A suspension reason is journaled as the last event. Any other exception ends an attempt not yet ended: blocked, for its code, when a call or tool is in doubt, the provider refused too often or progress is exhausted; failed otherwise, for a malformed answer or a worker that failed |
| Engine.CompanyWorkerHost.Flush | apps/server/src/execution/company_worker_engine.ts:38 | Shipping events makes no call and changes only acknowledgements in the journal, wherever it breaks off |
| Engine.CompanyWorkerHost.Pass | apps/server/src/services/company_worker_adapter.ts:89-101 | Between two statements the others may make any moves; the worker sees at most its answer or its death, and its journal is unchanged |
| Engine.CompanyWorkerHost.MarkRowSent | apps/server/src/execution/company_worker_journal.ts:36-38 | Marking a row sent is that move of the protocol, refused unless the row is prepared |
| Engine.CompanyWorkerHost.TakeReceipt | apps/server/src/services/company_worker_adapter.ts:110 | A controller receipt is taken exactly when one is stored for that operation and tool |
| Engine.CompanyWorkerHost.ExecuteCommand | apps/server/src/services/company_tool_service.ts:133-156 | An operation already known is answered from its row, or is in flight or unknown, with no change at all; for a new one a synchronous receipt and effect are committed together; a command that is not permitted has no effect and leaves no row |
| Engine.CompanyWorkerHost.StartWorker | apps/server/src/services/company_worker_adapter.ts:63-105 | A start needs a ready or suspended launch and an active attempt, opens a new epoch, and is a move of the protocol |
| Engine.CompanyWorkerHost.Recover | apps/server/src/services/company_worker_adapter.ts:171-220 | After a completed recovery the attempt has ended or is suspended with its launch, for the reason rows, grants, calls and events give (`Ends`); suspended, it has no call and, if the journal was read, no tool of unknown outcome. If the journal was read to its end, it is all applied, and every call found open is proved unsent, answered, or left to the owner with its money held, exactly as rows and journal say |
| Engine.CompanyWorkerHost.ConcludeWith | apps/server/src/services/company_worker_adapter.ts:205-219 | The decision over what was read is that move of the protocol, and keeps its invariant |
| Engine.CompanyWorkerHost.OnExit | apps/server/src/services/company_worker_adapter.ts:102 | After a worker's exit the attempt is suspended with its launch, or ended |
| Engine.CompanyWorkerHost.Replay | apps/server/src/services/company_worker_adapter.ts:186-189 | Read to its end, the whole journal is applied; broken off, the suspension it reports is the last one before some event. Only deliveries are made, and journal and grants are unchanged |
| Engine.CompanyWorkerHost.FailRow | apps/server/src/services/company_worker_adapter.ts:190 | A row with a permit and no response is failed on the ledger: unsent exactly when its row is |
| Engine.CompanyWorkerHost.ReleaseGrant | apps/server/src/services/company_worker_adapter.ts:191-193 | A grant of a prepared row without a permit is proved unsent |
| Engine.CompanyWorkerHost.ReleaseFirst | apps/server/src/services/company_worker_adapter.ts:205-206 | A first permit that was never granted is proved unsent |
| Engine.CompanyWorkerHost.SettleCalls | apps/server/src/services/company_worker_adapter.ts:190-193 | Only money rows change, only by the two moves on rows and grants; unless the file breaks off, every row and every grant of every row was handled |
| Engine.CompanyWorkerHost.ReadJournal | apps/server/src/services/company_worker_adapter.ts:179-204 | A journal read to its end is applied completely and every row and grant of it handled |
| Engine.OthersMeanwhile | apps/server/src/services/company_worker_adapter.ts:107-141 | A move of the controller or the company reaches a worker only through the answer it waits for |
| JournalService.CompanyWorkerJournal.CreateTables | apps/server/src/execution/company_worker_journal.ts:14-20 | Creating the tables makes a missing file one without identity and leaves the rows |
| JournalService.CompanyWorkerJournal.Identify | apps/server/src/execution/company_worker_journal.ts:21-23 | The identity row completes the file and leaves the rows |
| Engine.CompanyWorkerHost.OpenJournalFile | apps/server/src/execution/company_worker_journal.ts:12-24 | A process that survives both steps has a ready journal with its rows as they were; one that dies between them leaves tables without an identity |
| JournalService.CompanyWorkerJournal.Model | apps/server/src/execution/company_worker_journal.ts:29-35 | A row is inserted once; a different request under the same operation is refused and changes nothing |
| JournalService.CompanyWorkerJournal.ModelSent | apps/server/src/execution/company_worker_journal.ts:36-38 | Only a prepared row is marked sent, with its permit and one more attempt |
| JournalService.CompanyWorkerJournal.RetryNotSent | apps/server/src/execution/company_worker_journal.ts:39 | Only a row proved unsent with at most one attempt is prepared again |
| JournalService.CompanyWorkerJournal.ModelResponse | apps/server/src/execution/company_worker_journal.ts:40-46 | Response and event are written together, and only for a row that is sent |
| JournalService.CompanyWorkerJournal.ModelFailure | apps/server/src/execution/company_worker_journal.ts:47-53 | Outcome and event are written together, and only for a row that is sent |
| JournalService.CompanyWorkerJournal.OpenTool | apps/server/src/execution/company_worker_journal.ts:54-59 | A tool row is inserted once; another tool or other arguments are refused |
| JournalService.CompanyWorkerJournal.ToolStarted | apps/server/src/execution/company_worker_journal.ts:60 | Only a prepared tool is started |
| JournalService.CompanyWorkerJournal.ToolFinished | apps/server/src/execution/company_worker_journal.ts:61-66 | Result and event are written together, once |
| JournalService.CompanyWorkerJournal.AppendEvent | apps/server/src/execution/company_worker_journal.ts:67-73 | Events are numbered consecutively |
| JournalService.CompanyWorkerJournal.Pending | apps/server/src/execution/company_worker_journal.ts:74 | Exactly the events not acknowledged, in increasing order |
| JournalService.CompanyWorkerJournal.Acknowledge | apps/server/src/execution/company_worker_journal.ts:75 | Marks one event, nothing else |
| JournalService.CompanyWorkerJournal.AdvanceTo | apps/server/src/execution/company_worker_journal.ts:76-78 | Checkpoint and event are written together |
| JournalService.CompanyWorkerJournal.FinishWith | apps/server/src/execution/company_worker_journal.ts:79-81 | The first terminal checkpoint stays |
| JournalService.CompanyWorkerJournal.SuspendFor | apps/server/src/execution/company_worker_engine.ts:113 | A suspension is an event at the present step |
| AdapterService.CompanyWorkerAdapter.Authorize | apps/server/src/services/company_worker_adapter.ts:111-132 | A permit is the unused first one or a newly prepared one, granted in this epoch; a refusal changes nothing |
| AdapterService.CompanyWorkerAdapter.Receive | apps/server/src/services/company_worker_adapter.ts:142-156 | A receipt is stored and everything contiguous is applied in one transaction; a conflict or a failing event changes nothing |
| AdapterService.CompanyWorkerAdapter.ApplyWaiting | apps/server/src/services/company_worker_adapter.ts:149-153 | The loop applies exactly the contiguous run |
| AdapterService.CompanyWorkerAdapter.Apply | apps/server/src/services/company_worker_adapter.ts:157-170 | An event settles or fails only a permit bound to its operation |
| AdapterService.CompanyWorkerAdapter.Observe | apps/server/src/services/company_execution_service.ts:120-125 | A fact changes an attempt only while it is active |
| AdapterService.CompanyWorkerAdapter.IntentRefusalNow | apps/server/src/services/owner_automation_gate.ts:148-156 | Why a worker may not act, in the order of the checks: maintenance, automation off, the two holds, the checks around it, an attempt that is over |
| AdapterService.CompanyWorkerAdapter.ScopeRefusalNow | apps/server/src/services/owner_automation_gate.ts:75-79 | A permit is refused outside a pending or running attempt, and while an unknown call has no response |
| AdapterService.CompanyWorkerAdapter.HasOpenCall | apps/server/src/services/company_worker_adapter.ts:208 | Whether a permit of the attempt is pending without a response |
| AdapterService.CompanyWorkerAdapter.HasUnknownTool | apps/server/src/services/company_worker_adapter.ts:194-196 | Whether a started tool other than `save_artifact` has no matching receipt |
| AdapterService.CompanyWorkerAdapter.RecordStop | apps/server/src/services/company_worker_adapter.ts:207-216 | The verdict over an attempt still active: failed exactly when no evidence was read, the first permit was never granted and nothing is open; blocked as `CALL_OUTCOME_UNKNOWN` exactly when a call is open, and as `TOOL_OUTCOME_UNKNOWN` exactly when only a tool is; suspended only when nothing is, for the reason read; an ended attempt is unchanged |
| AdapterService.CompanyWorkerAdapter.Decide | apps/server/src/services/company_worker_adapter.ts:205-219 | The stop of an epoch is recorded once, with the verdict that `WorkerVerdicts.DiagnosisIsTheVerdict` gives, and the launch released accordingly |
| Money.RateIsExact | apps/server/src/services/owner_company_budget.ts:10 | Reading a price of up to six decimals rounds nothing |
| Money.CheaperComparesRates | apps/server/src/services/company_model_ledger.ts:35 | Comparing two prices is comparing their rates |
| Money.CostMicros | apps/server/src/services/owner_company_budget.ts:9-14 | A cost that is returned is a safe non-negative integer |
| Money.CostRoundsUpByLessThanOneMicro | apps/server/src/services/owner_company_budget.ts:12 | The charged micros are at least the exact cost and exceed it by less than one micro |
| Money.ReservationCovers | apps/server/src/services/company_model_ledger.ts:30-35 | For all prices, a call that keeps to its token limits costs at most what was reserved for it |
| Ledger.ChargedAtMostOnce | apps/server/src/services/company_model_ledger.ts:36-53 | In every run two permits of one source, kind and world are the same permit unless one is `NOT_SENT` |
| Ledger.RunEvolves | apps/server/src/services/company_model_ledger.ts:62-83 | In every run `NOT_SENT` and `SETTLED` are final with their amounts, responses are never replaced, and identity and reservation of a row never change |
| Ledger.RunKeepsInv | apps/server/src/services/company_model_ledger.ts:29-83 | One live permit per source, each reservation the price of its limits, and no permit before a budget was activated, in every run |
| Ledger.StepKeepsInv | apps/server/src/services/company_model_ledger.ts:29-83 | Every operation keeps the invariant and changes rows only as they may evolve |
| Ledger.StepMoney | apps/server/src/services/owner_company_budget.ts:25-59 | No operation lowers settled spend or settlement excess; apart from `configure`, overspend grows at most by the excess of that operation |
| Ledger.SpentNeverDecreases | apps/server/src/services/owner_company_budget.ts:25-51 | Lifetime settled spend never decreases in any run, including periods, restarts and late bills |
| Ledger.OverspendIsExcessSinceConfigure | apps/server/src/services/owner_company_budget.ts:25-59 | In every run the overspend of the period is at most what settlements exceeded their reservations by since the last accepted `configure` |
| Ledger.NothingOverspentWithoutExcess | apps/server/src/services/owner_company_budget.ts:25-59 | If no settlement exceeds its reservation, spent plus held never exceeds the total |
| Ledger.ConfigureCarriesReservations | apps/server/src/services/owner_company_budget.ts:38-50 | An accepted `configure` starts with nothing spent or overspent and every pending reservation carried over |
| Ledger.ConfigureRefusedForPendingMoney | apps/server/src/services/owner_company_budget.ts:42 | With valid input `configure` is refused if and only if the new amount is below the money held |
| Ledger.CompliantResponseStaysWithinReservation | apps/server/src/services/company_model_ledger.ts:62-79 | A response within its token limits settles within its reservation and raises no hold |
| Ledger.OverrunRaisesHold | apps/server/src/services/company_model_ledger.ts:76 | A first response raises the hold if and only if its known bill exceeds tokens or micros of the permit |
| Bills.ResponseIsChargedExactly | apps/server/src/services/company_model_ledger.ts:62-79 | A first response with a priced usage settles its permit at the least whole micro that covers every reported token at its own rate, cached tokens at the cached price or else the input price, with the reported token count, and raises the hold exactly if either exceeds what was reserved; with any other usage the bill is unknown and the money stays held |
| Bills.ResponseIsRefusedExactly | apps/server/src/services/company_model_ledger.ts:62-79 | When a first response to a call that may have been sent is refused, and why: more cached than prompt tokens, a price of more than six decimals, an amount that is no safe integer, or a settlement by hand it contradicts, among them every settlement if the usage has no bill |
| Bills.PermitIsGrantedExactly | apps/server/src/services/company_model_ledger.ts:29-61 | A permit is granted if and only if automation is on, the checks around it do not object, its source has no other that may have been sent, and what it could cost at most fits into what is left; its row holds the least whole micro that covers that cost |
| Bills.RefusalSaysWhy | apps/server/src/services/company_model_ledger.ts:29-61 | What a request without a permit is told, by the first reason that applies; money held by open calls is told apart from money that is gone, and an earlier call of the same source answers by its response or its state |
| Bills.OwnerSettlesExactly | apps/server/src/services/owner_automation_gate.ts:223-239 | A bill entered by hand settles a call of unknown outcome at that amount, moves it from held to spent, and does nothing else |
| Bills.WaiverExactly | apps/server/src/services/owner_automation_gate.ts:192-196 | A World call of unknown outcome that was never billed gives its money back; no other call does |
| Bills.PeriodStartsExactly | apps/server/src/services/owner_company_budget.ts:34-51 | A period is granted exactly for a valid amount, the revision the owner saw, at least what is held, and another number of tokens if the last one ran dry; it then has room for the amount less what is held |
| Ledger.HoldNamesAnOverrun | apps/server/src/services/company_recovery_service.ts:58-67 | In every run a safety hold names a permit that was settled above its reservation or its tokens, and acknowledging it is accepted |
| Ledger.HoldEndsOnlyByAcknowledgement | apps/server/src/services/company_recovery_service.ts:58-67 | In every run a hold that was raised and is gone was acknowledged at some operation in between, which named the held permit, settled and over its limits |
| Ledger.HoldStopsSpending | apps/server/src/services/owner_automation_gate.ts:55-64 | Under the hold no permit is created in any run without an acknowledgement |
| Ledger.AcknowledgeNeedsReceipt | apps/server/src/services/company_recovery_service.ts:58-67 | A hold is acknowledged if and only if it is the one raised and its permit is settled |
| Ledger.RespondAccepts | apps/server/src/services/company_model_ledger.ts:62-79 | When a response is accepted, as a condition on the row alone |
| Ledger.LivePermit | apps/server/src/services/company_model_ledger.ts:39 | The permit found is one of the source that is not `NOT_SENT`; none is found only when there is none |
| Ledger.OnRefusal | apps/server/src/services/owner_automation_gate.ts:95-97 | There is no refusal if and only if automation is on |
| LedgerService.CompanyModelLedger.Restart | apps/server/src/services/owner_automation_gate.ts:58-59 | A new process turns every `SENT` permit into `UNKNOWN` and nothing else |
| LedgerService.CompanyModelLedger.View | apps/server/src/services/owner_company_budget.ts:25-33 | The loop over the rows computes total, spent, held and available money |
| LedgerService.CompanyModelLedger.Configure | apps/server/src/services/owner_company_budget.ts:34-51 | A new period, or a refusal that changes nothing |
| LedgerService.CompanyModelLedger.MarkInsufficient | apps/server/src/services/owner_company_budget.ts:52 | Asks for a refill once |
| LedgerService.CompanyModelLedger.Reserve | apps/server/src/services/owner_company_budget.ts:53-58 | Money is set aside only within what is available |
| LedgerService.CompanyModelLedger.FindLive | apps/server/src/services/company_model_ledger.ts:39 | The newest permit of a source that may have been sent |
| LedgerService.CompanyModelLedger.Refusal | apps/server/src/services/owner_automation_gate.ts:95-97 | Why automation is not on, in the order of the checks |
| LedgerService.CompanyModelLedger.Explain | apps/server/src/services/company_model_ledger.ts:54-58 | Exhausted becomes busy exactly when only pending calls keep the money |
| LedgerService.CompanyModelLedger.Prepare | apps/server/src/services/company_model_ledger.ts:29-61 | A call is admitted, answered from an earlier response, or refused with nothing changed |
| LedgerService.CompanyModelLedger.Admit | apps/server/src/services/company_model_ledger.ts:36-53 | The permit inserted before its money is reserved disappears when the reservation fails |
| LedgerService.CompanyModelLedger.Respond | apps/server/src/services/company_model_ledger.ts:62-79 | Settlement, stored response and hold are written together, as `Bills.ResponseIsChargedExactly` states, or nothing is |
| LedgerService.CompanyModelLedger.Failure | apps/server/src/services/company_model_ledger.ts:80-83 | Only a pending permit without a response changes |
| LedgerService.CompanyModelLedger.ReconcileCall | apps/server/src/services/owner_automation_gate.ts:223-239 | Only an unknown permit is settled by hand, at any amount and without a halt |
| LedgerService.CompanyModelLedger.ConfirmNotBilled | apps/server/src/services/owner_automation_gate.ts:192-196 | Only an unknown permit of a World call becomes `NOT_SENT` |
| LedgerService.CompanyModelLedger.Acknowledge | apps/server/src/services/company_recovery_service.ts:58-67 | Clears exactly the hold that was raised |
| Execution.RunKeepsInv | apps/server/src/services/company_execution_service.ts:23-25 | In every run fences of a task increase, only its newest attempt may be active, and a world has one pending or running attempt; what is applied in the inbox is exactly what the sequence says |
| Execution.RunEvolves | apps/server/src/services/company_execution_service.ts:103-104 | In every run terminal attempts never change, identities and fences never change, a launched command is never offered again, and no receipt is forgotten |
| Execution.StepKeeps | apps/server/src/services/company_execution_service.ts:46-140 | Every operation keeps the invariant and lets rows change only so |
| Execution.LatestIsLast | apps/server/src/services/company_execution_service.ts:45 | The attempt with the highest fence of a task is its last, and an active one is that attempt |
| Execution.Latest | apps/server/src/services/company_execution_service.ts:43-45 | The attempt selected has the highest fence of its task or run |
| Receipts.SupersededReceiptChangesNothing | apps/server/src/services/company_execution_service.ts:88-89 | A receipt of an attempt that is not its task's newest, or with another fence, changes nothing |
| Receipts.OnlyTheNewestAttemptWritesItsTask | apps/server/src/services/company_execution_service.ts:98-118 | A delivery changes a task row only for the attempt with the highest fence of that task |
| Receipts.NewAttemptSupersedes | apps/server/src/services/company_execution_service.ts:58-61 | A claim or resumption has a higher fence than every earlier attempt of its task, none of which is active, and a world nobody holds |
| Receipts.SameFactIsAbsorbed | apps/server/src/services/company_execution_service.ts:119-125 | Reporting a known durable fact again changes nothing |
| Receipts.RedeliveryChangesNothing | apps/server/src/services/company_execution_service.ts:86-87 | A stored receipt is absorbed, in any reachable state |
| Receipts.ContiguousIsPrefix | apps/server/src/services/company_execution_service.ts:98-118 | The loop applies exactly the longest contiguous run, or fails exactly when one of that run cannot follow |
| Receipts.DeliveryExactly | apps/server/src/services/company_execution_service.ts:83-118 | A new receipt is accepted if and only if all receipts its arrival makes applicable can follow one another; then the set delivered determines the state |
| Receipts.DeliveryIsConfluent | apps/server/src/services/company_execution_service.ts:83-118 | Any order with any repetitions ends in the in-order application of the longest contiguous prefix, with the rest waiting |
| Receipts.OrderImmaterialExactly | apps/server/src/services/company_execution_service.ts:98-118 | The order of delivery is immaterial if and only if every receipt can follow its predecessor, or not even the first can |
| Receipts.OrderCanMatter | apps/server/src/services/company_execution_service.ts:98-118 | A concrete run: after a claim, start, completion and a late failure are applied up to the completion in order, and not at all when delivered backwards |
| Receipts.UpwardsStops | apps/server/src/services/company_execution_service.ts:103-104 | In order, receipts are applied up to the first that cannot follow; the others wait |
| Receipts.DownwardsAborts | apps/server/src/services/company_execution_service.ts:103-104 | Last first, the arrival of the first receipt is refused with everything behind it |
| Deliveries.DeliveryLeaves | apps/server/src/services/company_execution_service.ts:83-118 | What an accepted new receipt leaves: stored and waiting, or applied with every receipt contiguous to it. Then the task is running, replied, failed or blocked exactly as the last of them is a start, a completion, a failure or anything else; its reply is the last one given, or the earlier one, its reason that of the last; the command is delivered; and a goal still at work on that revision is blocked if and only if one of them was neither a start nor a completion, for the reason of the first |
| Deliveries.ContiguousLeaves | apps/server/src/services/company_execution_service.ts:98-118 | The same of the loop over the buffered receipts |
| Claims.ClaimSucceedsExactly | apps/server/src/services/company_execution_service.ts:46-67 | A waiting command is given again to the same request and to no other; otherwise an attempt is opened exactly when the task is queued, neither it nor the world is taken and the checks around it do not object, with the next fence |
| Claims.LaunchesExactly | apps/server/src/services/company_execution_service.ts:69-75 | A command is taken exactly while its attempt waits for it, by the controller that owns the attempt |
| Claims.LaunchedAtMostOnce | apps/server/src/services/company_execution_service.ts:69-75 | In every run the command of an attempt is launched at most once, through restarts, redeliveries and repeated requests |
| Claims.CancelledIsNeverLaunched | apps/server/src/services/company_execution_service.ts:76-82 | Exactly an attempt that waits to start is interrupted by a cancellation, and in no later state of any run is its command launched |
| Claims.ObservedIsApplied | apps/server/src/services/company_execution_service.ts:119-125 | A fact observed about a run is applied at once, as the next receipt of its newest attempt, if that is live, belongs to this controller and the fact is new; otherwise nothing changes |
| Claims.ResumedExactly | apps/server/src/services/company_execution_service.ts:132-140 | A run that has ended is continued by a new attempt with the next fence, started at once, exactly when no later attempt of its task exists and its world is free |
| ExecutionService.CompanyExecutionService.Newest | apps/server/src/services/company_execution_service.ts:43-45 | The selection loop finds the newest attempt |
| ExecutionService.CompanyExecutionService.Clashing | apps/server/src/services/company_execution_service.ts:23-25 | Whether another attempt holds the world, or the same work |
| ExecutionService.CompanyExecutionService.ApplyBuffered | apps/server/src/services/company_execution_service.ts:98-118 | The row-by-row loop writes attempt, task, outbox and goal as the contiguous run does, which `Deliveries.ContiguousLeaves` states row by row |
| ExecutionService.CompanyExecutionService.Receive | apps/server/src/services/company_execution_service.ts:83-97 | A receipt is applied with everything it makes applicable, as `Deliveries.DeliveryLeaves` states, or the transaction leaves no trace |
| ExecutionService.CompanyExecutionService.Post | apps/server/src/services/company_execution_service.ts:85-96 | Unknown attempt, known event, fence and sequence decide in that order before anything is stored |
| ExecutionService.CompanyExecutionService.Observe | apps/server/src/services/company_execution_service.ts:120-125 | A fact known before is delivered as it was; otherwise it follows the last applied receipt |
| ExecutionService.CompanyExecutionService.Claim | apps/server/src/services/company_execution_service.ts:46-67 | A waiting command is returned again; a new claim inserts attempt and command together; a refusal changes nothing |
| ExecutionService.CompanyExecutionService.PendingCommand | apps/server/src/services/company_execution_service.ts:49 | The first attempt of that work whose command was not taken |
| ExecutionService.CompanyExecutionService.TakeDispatch | apps/server/src/services/company_execution_service.ts:69-75 | A command is launched once, and only by the controller that holds its lease |
| ExecutionService.CompanyExecutionService.CancelPrepared | apps/server/src/services/company_execution_service.ts:76-82 | Only an attempt that was not started is interrupted, and its command cancelled |
| ExecutionService.CompanyExecutionService.AdoptAfterExit | apps/server/src/services/company_execution_service.ts:127-130 | Only the lease of an active attempt of another controller changes |
| ExecutionService.CompanyExecutionService.ResumeLegacyRun | apps/server/src/services/company_execution_service.ts:132-140 | A terminal newest attempt is continued by one with the next fence, started at once, or nothing changes |
| ReleaseHistory.PlanIsExactlyThePath | supervisor/release_history.ts:5-17 | The plan succeeds with given steps if and only if the target is admissible and they are the published parent path to it |
| Ancestry.PlanIsTheDescent | supervisor/release_history.ts:5-17 | Where children have higher numbers, the plan is given steps if and only if they are the records of an intact published descent from the active generation to an older target that did not fail; the three errors are told apart by conditions on the rows: a target that makes no sense, a lineage that ends before it, a birth on the way that is not on record |
| ReleaseHistory.PathIsUnique | supervisor/release_history.ts:8-15 | There is at most one such path |
| ReleaseHistory.CycleCheckNeverFires | supervisor/release_history.ts:10 | Where numbers exceed those of parents, the walk equals one bounded by the number alone, without the cycle check |
| ReleaseHistory.PathDescends | supervisor/release_history.ts:8-15 | Every generation passed is newer than the target |
| ReleaseHistory.RollbackPlan | supervisor/release_history.ts:5-17 | The loop over current, seen and steps computes the plan that `Ancestry.PlanIsTheDescent` characterises |
| ReleaseHistory.Find | supervisor/release_history.ts:11 | The first record that published a generation with its release |
| ReleaseHistory.Publication | supervisor/release_history.ts:11 | A record found has that release and target; none is found only when there is none |
| ReleaseHistory.Link | supervisor/release_history.ts:11-13 | A link leads to a known parent |
| SupervisorRuns.RecoveryAlwaysConverges | supervisor/generation_supervisor.ts:459-473 | In every run in which recovery comes first, a recovery that lives for six writes ends without a conflict, nothing unfinished, and one active generation named by lineage, pointer and release |
| SupervisorRuns.RecoverConverges | supervisor/generation_supervisor.ts:459-473 | From every state of the invariant recovery never throws and keeps the invariant wherever it dies; completed, nothing is left unfinished |
| SupervisorRuns.CleanMeansAgreement | supervisor/generation_supervisor.ts:390-394 | A clean state has exactly one active generation, named by all three stores, and nothing half born |
| SupervisorRuns.RunKeepsInv | supervisor/generation_supervisor.ts:102 | In every such run generation numbers exceed those of parents and at most one generation is active |
| SupervisorRuns.StepKeeps | supervisor/generation_supervisor.ts:189-473 | Every command keeps the invariant wherever its process dies or its steps fail |
| SupervisorResults.BirthStepsKeep | supervisor/generation_supervisor.ts:220-294 | A birth breaks no table constraint and keeps the invariant after each of its writes |
| SupervisorResults.RestoreKeeps | supervisor/generation_supervisor.ts:310-372 | A restoration keeps the invariant after each write; completed, all stores name the base again |
| SupervisorResults.DeleteKeeps | supervisor/generation_supervisor.ts:434-448 | A deletion changes only the state of its candidate, intents and files, and one interrupted can be completed |
| SupervisorRuns.RollbackReachesItsTarget | supervisor/generation_supervisor.ts:395-422 | From every clean state, a rollback goes through exactly when an intact published descent leads from the active generation to an older target that did not fail; completed, the target is active in all stores and everything passed is rolled back; refused, nothing is written, and the three errors are told apart by the rows |
| Births.OnlyApprovedAreBorn | supervisor/generation_supervisor.ts:189-219 | In every run a candidate that has a generation was approved by the owner before |
| Births.BirthIsRefusedExactly | supervisor/generation_supervisor.ts:189-219 | When a birth is refused, why, in the order of the checks, and that nothing is written then |
| Births.BirthCompletes | supervisor/generation_supervisor.ts:220-294 | A birth admitted into a clean state and given the writes it needs ends with the candidate published and its generation active in all stores, its base retired |
| Births.FailedBirthIsTakenBack | supervisor/generation_supervisor.ts:295-309 | A birth in which something fails, at whatever write, and whose process lives to take it back leaves the candidate failed, its generation with it if there is one, and everything else as it was |
| Births.RecoverySettlesExactly | supervisor/generation_supervisor.ts:459-473 | What a completed recovery makes of each candidate and generation: a deletion is finished, a birth or rollback cut short is taken back as failed, and nothing else changes |
| Births.NewerReleasesAreDeleted | supervisor/generation_supervisor.ts:449-458 | After a rollback exactly the releases above the active generation are deleted, whether they were published, failed, or never got that far |
| Guards.RollbackToIsGuarded | supervisor/generation_supervisor.ts:390-398 | A rollback to an ancestor starts only from the generation the owner saw, named by all stores, with nothing being born, rolled back or deleted; otherwise nothing is written |
| Guards.RollbackIsGuarded | supervisor/generation_supervisor.ts:373-381 | The owner's rollback of one candidate does nothing to one rolled back already and is refused unless it is the published candidate of the active generation |
| Guards.DeletionIsGuarded | supervisor/generation_supervisor.ts:434-448 | A deletion is allowed exactly after a rollback to the active generation, for a release above it that has come to rest or whose deletion was begun under it; then its code is gone and its row says so, and no other row has changed |
| Guards.CleanupIsGuarded | supervisor/generation_supervisor.ts:449-451 | All newer releases are deleted at once only from the generation the owner saw and a rollback ended at |
| SupervisorRuns.SamePlan | supervisor/release_history.ts:5-17 | Changes that keep the ancestry leave the plan to every target as it was |
| SupervisorRuns.DeletionKeepsTheAncestry | supervisor/generation_supervisor.ts:449-458 | Deleting newer releases keeps every plan and the code of the active release and its ancestors, and deletes exactly what the rules allow |
| SupervisorLimits.RollbackStrandsExactlyWhenUnfinished | supervisor/generation_supervisor.ts:373-381 | After a rollback, completed or cut short anywhere, a recovery with six writes completes if and only if nothing was unfinished when it began, or it was not admitted, or it died before its first write; otherwise no recovery completes, and one with twice the writes throws |
| SupervisorLimits.BirthStrandsExactlyOverADeletion | supervisor/generation_supervisor.ts:189-309 | After a birth, completed, failed or cut short anywhere, a recovery with six writes completes if and only if nothing was unfinished when it began, or it was refused, or it wrote nothing, or it failed and lived until its candidate was taken back; otherwise recovery throws |
| SupervisorLimits.StrandedRun | supervisor/generation_supervisor.ts:373-381 | A concrete run after which every recovery throws `PRE_SWITCH_RECOVERY_CONFLICT` |
| SupervisorLimits.StrandedDeletionRun | supervisor/generation_supervisor.ts:197 | A concrete run to an interrupted deletion over which a birth is admitted, after which every recovery throws |
| SupervisorService.GenerationSupervisor.Birth | supervisor/generation_supervisor.ts:189-309 | A birth refused by a guard writes nothing; one that fails is restored from exactly the writes it made |
| SupervisorService.GenerationSupervisor.Publish | supervisor/generation_supervisor.ts:221-293 | The durable writes of a birth happen in order, exactly up to the step that fails |
| SupervisorService.GenerationSupervisor.Restore | supervisor/generation_supervisor.ts:310-372 | Before the switch the birth is abandoned; after it release, pointer and lineage go back in that order |
| SupervisorService.GenerationSupervisor.Rollback | supervisor/generation_supervisor.ts:373-381 | Nothing for a candidate rolled back already; otherwise only the candidate of the active generation is restored |
| SupervisorService.GenerationSupervisor.RollbackCandidate | supervisor/generation_supervisor.ts:382-389 | Only the candidate of the active generation is taken back |
| SupervisorService.GenerationSupervisor.RollbackTo | supervisor/generation_supervisor.ts:395-422 | Refused over anything unfinished or without a descent to the target; otherwise the steps of that descent are taken back in order until one fails |
| SupervisorService.GenerationSupervisor.DeleteRelease | supervisor/generation_supervisor.ts:434-448 | Intent, removal and record in that order, the recorded intent being reused |
| SupervisorService.GenerationSupervisor.DeleteNewerReleases | supervisor/generation_supervisor.ts:449-458 | The releases chosen before the first deletion are deleted one by one |
| SupervisorService.GenerationSupervisor.Recover | supervisor/generation_supervisor.ts:459-473 | Interrupted deletions are finished first, then transitions are restored |
| SupervisorService.GenerationSupervisor.Consistency | supervisor/generation_supervisor.ts:390-394 | Whether the three stores name a generation |
| Progress.CallsAreCounted | apps/server/src/services/company_progress_service.ts:93-99 | In every run calls of a scope equal its distinct operation keys and keep to their maxima, and no gap has more attempts than its limit |
| Progress.AttemptsAreBounded | apps/server/src/services/company_progress_service.ts:100-107 | In every run an output is attempted at most three times plus what the owner granted |
| Progress.RunKeepsInv | apps/server/src/services/company_progress_service.ts:45-132 | The counts, limits and scope membership behind these hold in every run |
| Progress.EvaluationRetriesExactly | apps/server/src/services/company_progress_service.ts:146-175 | An evaluation stores `RETRY` exactly when the output is not good enough, the stored gap has fewer attempts than its limit and did not repeat itself under a policy, and no limit stopped it; the gap is then open and admits the next attempt |
| Progress.AdmittedCallIsOnRecord | apps/server/src/services/company_progress_service.ts:108-121 | An admitted model call is charged and counted, and admitting it again changes nothing |
| Progress.RetrySharesItsScope | apps/server/src/services/company_progress_service.ts:56-80 | A retry joins the scope of the occurrence it retries with its counts as they are, and joins once |
| Evaluations.EvaluationDecidesExactly | apps/server/src/services/company_progress_service.ts:146-175 | Each of the five verdicts is an if-and-only-if over what the evidence meets, the attempts left, their repetition and a progress limit; the stored attempts are those before, the last with the digest of what it brought |
| Evaluations.RequirementsAreMarked | apps/server/src/services/company_progress_service.ts:146-155 | An evaluation marks every listed requirement as the evidence meets it, keeps its attempts and its limit, lets one first met start from what its replaced criterion used up, and leaves every other missing fact alone |
| Allowances.ModelCallIsAdmittedExactly | apps/server/src/services/company_progress_service.ts:93-121 | A model call is admitted exactly when its output has an attempt left and its method did not merely repeat itself, and its operation is charged or can be, inside the window and with a call of each kind left; attempt and charge are on record once, together |
| Allowances.ToolCallIsAdmittedExactly | apps/server/src/services/company_progress_service.ts:93-132 | The same of a tool call and the missing fact it names |
| Allowances.ToolResultIsRecorded | apps/server/src/services/company_progress_service.ts:133-140 | The result of a tool is recorded in every missing fact it was an attempt at, and nowhere else |
| Allowances.WindowOpensOnce | apps/server/src/services/company_progress_service.ts:81-92 | The window opens with the first start and is moved by no later one; past it, or without calls left, a start is refused |
| Allowances.OwnerExtendsExactly | apps/server/src/services/company_progress_service.ts:219-227 | What the owner may add, and what it adds: calls of each kind, time to a window not yet open, still open or ended, attempts to a missing fact |
| Placements.DispatchJoinsExactly | apps/server/src/services/company_progress_service.ts:56-80 | Which scope a dispatch joins, as a condition on the scopes there are: the first the owner marked, that of the occurrence retried, for work done once that of a schedule it depends on or of its first dependency, or that with its key; a new one with full allowances otherwise, and a refusal exactly over two schedules |
| Placements.ContinuationRejoins | apps/server/src/services/company_progress_service.ts:199-210 | What the owner asked to be continued joins a scope marked for it, the first that was; its own is then empty and full again |
| Progress.Chosen | apps/server/src/services/company_progress_service.ts:61-73 | A scope that is chosen exists |
| Progress.ForDispatch | apps/server/src/services/company_progress_service.ts:32-35 | The scope found holds the dispatch; none is found only when none does |
| Progress.Met | apps/server/src/services/company_progress_service.ts:149-155 | All requirements are met exactly when as many are met as there are |
| ProgressService.CompanyProgressService.FindScope | apps/server/src/services/company_progress_service.ts:32-35 | The search finds the scope of a dispatch |
| ProgressService.CompanyProgressService.Choose | apps/server/src/services/company_progress_service.ts:59-73 | Continuation, retried occurrence, inherited schedule and key, in that order; two schedules are ambiguous |
| ProgressService.CompanyProgressService.Attach | apps/server/src/services/company_progress_service.ts:56-80 | A dispatch joins one scope, created if none is chosen; an ambiguous one changes nothing |
| ProgressService.CompanyProgressService.StartWindow | apps/server/src/services/company_progress_service.ts:81-87 | The window opens once; past its limits the transaction changes nothing |
| ProgressService.CompanyProgressService.Consume | apps/server/src/services/company_progress_service.ts:93-99 | An operation is charged once; a refusal changes nothing |
| ProgressService.CompanyProgressService.Touch | apps/server/src/services/company_progress_service.ts:45-54 | A gap is created once, starting from what a superseded criterion used up |
| ProgressService.CompanyProgressService.RecordAttempt | apps/server/src/services/company_progress_service.ts:100-107 | An attempt is added once, within the limit, unless its method repeated itself |
| ProgressService.CompanyProgressService.BeforeModel | apps/server/src/services/company_progress_service.ts:108-121 | Gap, attempt and charge together, or nothing |
| ProgressService.CompanyProgressService.BeforeTool | apps/server/src/services/company_progress_service.ts:122-132 | Charge and attempt together, or nothing |
| ProgressService.CompanyProgressService.RecordTool | apps/server/src/services/company_progress_service.ts:133-140 | The first attempt of the operation in each gap takes the fingerprint of the result |
| ProgressService.CompanyProgressService.CheckRequirements | apps/server/src/services/company_progress_service.ts:149-155 | The count is that of the requirements met; each one's gap is resolved or open accordingly, and no longer superseded |
| ProgressService.CompanyProgressService.Weigh | apps/server/src/services/company_progress_service.ts:156-172 | Verdict and output gap follow evidence, percentage, attempts left, repetition and refusal, in that order |
| ProgressService.CompanyProgressService.Evaluate | apps/server/src/services/company_progress_service.ts:146-175 | Verdict, gaps and outcome are stored together |
| ProgressService.CompanyProgressService.RequestContinuation | apps/server/src/services/company_progress_service.ts:199 | The scope is marked for the next attempt of the node |
| ProgressService.CompanyProgressService.Supersede | apps/server/src/services/company_progress_service.ts:211-218 | A replaced criterion is marked, its attempts kept |
| ProgressService.CompanyProgressService.ResetWindow | apps/server/src/services/company_progress_service.ts:205-210 | A continuation starts with a full window and full allowances |
| ProgressService.CompanyProgressService.Extend | apps/server/src/services/company_progress_service.ts:219-227 | Allowances grow by what the owner grants, or nothing changes |
| Migration.MigrationCopiesExactlyTheChains | packages/persistence/src/current_store.ts:61-93 | Migration succeeds if and only if every active skill's chain is intact and acyclic; it then holds exactly the candidates of those chains, once each, after their predecessors, with need references exactly to needs that were kept |
| Inheritance.GenerationInheritsExactly | packages/persistence/src/current_store.ts:61-93 | A new generation inherits, in their order and nothing else, the working states and open objectives marked to be carried on, the needs still open or embodied by a running skill, and the active skills; a changed interface opens satisfied needs again and sends skills back to validation |
| Inheritance.CandidatesAreInheritedExactly | packages/persistence/src/current_store.ts:75-91 | Migration succeeds if and only if every candidate an active skill runs has an unbroken line of known predecessors, active or retired; the new store then holds, each once and after its predecessor, the candidates on those lines and no others, as they were but for needs that were not kept |
| Migration.CopyWorks | packages/persistence/src/current_store.ts:75-85 | One copy succeeds exactly for a sound chain and adds exactly what the chain still lacks |
| Migration.ClosedIsSound | packages/persistence/src/current_store.ts:75-85 | Every copied candidate has an intact acyclic chain |
| Migration.NeedsAreCarried | packages/persistence/src/current_store.ts:68-73 | A need is in the new store if and only if it is one that is kept |
| MigrationService.CurrentMigration.CopyCandidate | packages/persistence/src/current_store.ts:75-85 | The recursion appends exactly the predecessors still missing and then the candidate; the set it keeps is that of the new rows; a broken or cyclic chain is an error |
| MigrationService.CurrentMigration.CopySkills | packages/persistence/src/current_store.ts:86-91 | Every active skill is carried after its chain, active only where both interfaces agree; the first broken chain fails all |
| MigrationService.CurrentMigration.CopyRows | packages/persistence/src/current_store.ts:63-92 | On success the new store is the migrated one; otherwise the error is that of the first broken chain |
| MigrationService.CurrentMigration.MigrateCurrentState | packages/persistence/src/current_store.ts:61-93 | The new store is the migrated one, or empty as before |

## Left out

- Storage and transport: SQLite, IPC, HTTP, files and JSON text; a transaction is atomic, a hash injective, a message is
  answered or lost.
- Process locks, process identity and epochs of messages: one live worker per attempt, and recovery runs after its exit.
- The `busy` flags of the supervisor: one operation at a time.
- Goal and plan scheduling: a goal is a status and a revision, and the verdict of its checks is a parameter. The update of
  `owner_goal_dispatches.run_id`, the accounting state, times, leases' expiry and revision counters are not kept.
- Reasons and messages as texts, validation of specifications and tool inputs, the limit of ten operations and the parsing
  of answers: what an answer asks for is arbitrary.
- In the worker protocol the attempt is its state and reason, and a scope's verdict a parameter; fences, inbox and leases are
  in `Execution`, scopes in `Progress`. `WorkerAdmission` joins them for the calls and grants of workers whose dispatch has
  joined a scope when they first ask; work without a dispatch has no allowance. Leases are not joined.
- The wait row of a refused permit (`recordWait`), which the transaction around it rolls back.
- The branch at `apps/server/src/services/company_worker_adapter.ts:213` and the first half of `:214`: with the journal file
  missing and the first permit never granted, the branch at `:210` or `:211` is taken before them.
- Order of two holds by creation time: with both present the safety hold is the one reported.
- The cost of permits older than the budget, and the comparison of a settled cost as a floating-point number
  (`apps/server/src/services/company_model_ledger.ts:72`), done here in micros.
- Reviews of unknown outcomes without a bill, and the round permits of a run.
- Smoke runs, services, snapshots, Dream and integrity checks of releases: they only decide after which write an operation
  fails. Blocks of worlds created after a restored generation, and the notes and events of the lineage, are left out.
- A rollback cut short is finished by recovery as `FAILED`, not `ROLLED_BACK`, as in the code; no other outcome is claimed.
- Which superseded gap is listed first, and whether evidence meets a requirement, are parameters.
- A cyclic chain of predecessors exhausts the stack in the original; here it is the thrown `RangeError`, and the
  transaction is rolled back.

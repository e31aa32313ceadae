# Verified model of the Synecdoche client

Synecdoche is a BOINC-compatible volunteer-computing client: it fetches work from projects,
downloads files, runs applications on the idle CPUs of a host and reports results. This project
models the parts of the client whose state is shared and changed in place, and proves what they
keep over every call, every run and every failure.

The modules follow the source:

- `CpuTypes`, `Deadlines`, `EdfPhase`, `Preference`, `DebtPhase`, `Scheduler`: which results
  `schedule_cpus` wants to run (client/cpu_sched.C); `Selection` says it in terms of deadlines, RAM
  and shared memory. The first loop takes results by deadline, the second by debt. Since
  the filter for missed deadlines is commented out, the first loop goes over all runnable
  CPU-intensive results, and the second one is proved to add nothing.
- `MarkLedger`, `Placement`, `Turns`, `Enforcer`: how `enforce_schedule` turns the schedule into marks
  on tasks. The ledger ties `ncpus_used` and `ram_left` to the marks; the bounds on RAM and CPUs and the
  comment at line 720 follow from it and from what `schedule_cpus` ensures. `Scheduler.Reschedule`
  runs the two functions one after the other. `Fairness` says who is preempted and who has to wait,
  in terms of time slices, checkpoints, missed deadlines and RAM.
- `Debts`: the accounting of `adjust_debts`, over single passes and over runs. `Passes`: who pays in a
  pass and how the debts move. `Drift`: runs in which projects come and go.
- `Records`, `Vectors`, `Collector`, `Detach`, `Merge`: the record graph, the reference-counting
  collector that deletes from vectors in place, resetting and detaching a project, and merging a
  scheduler reply (client/client_state.C, client/cs_scheduler.C, with check_all of
  client/check_state.C as part of the invariant). `Resets` says what a reset leaves, `Replies` what a
  reply leads to. `Lifecycle` runs them one after the other, with
  tasks and transfers in between, from a client without projects; `StaleSchedule` follows the
  schedule over such runs.
- `StateFile`: the three state files, with failures and crashes at every step.
- `Messages`: suspend and resume messages between client and application.
- `Throttle`, `Download`, `Slots`, `Urls`, `Transfers`: the CPU usage limit, resumable downloads, slot
  directories, URL cycling, and the limits and links of file transfers.

Conventions: a C++ `double` is a `real`. Records that the client only links together are values
that carry an address, or positions in their vector; what the client changes in place are the
fields of a class (`ClientState`, `CpuState`, `Accounts`, `Files`, `Queue`, `Limiter`, `Transfer`,
`TaskSet`, `FileInfo`, `Client`), and each method is proved against a function or relation on the
old state. What comes from outside enters as a parameter: the clock, the results of the round-robin
simulation, whether a result, project or task is runnable, available RAM, smoothed working sets,
whether file operations fail, what servers send, and when applications take messages.

Things that the proofs showed about the code:

- The second loop of `schedule_cpus` is without effect (`Scheduler.TwoLoops`).
- A collection does not look at `ordered_scheduled_results`. When the server acknowledges a scheduled
  result that no task runs, the collection at the end of the reply deletes it, and the schedule keeps
  referring to it until it is made again (`StaleSchedule.ScheduleCanDangle`). In runs of the
  events modelled here there is no other way (`StaleSchedule.ScheduleOverRuns`).
- The comparison of `assign_results_to_projects` is not the order that its comment gives: one that is
  marked as running and has no process can give way to a preempted task
  (`Preference.BetterRank`, `Preference.SettledRank`). `Preference.AllOrders` says exactly when the
  order of the tasks makes no difference. The comment also says that projects with a choice are
  skipped; the code may replace the choice, and the model follows it.
- `app_finished` records wall time for background tasks too, `detach_project` leaves the recorded wall
  time of the project in the total, and `abort_project` forgets a debt; `adjust_debts` then takes the
  difference from all projects (`Debts.BackgroundTaskUpsets`, `Debts.DetachUpsets`,
  `Drift.DriftIsSurplus`). `Debts.NormalisationEffect` says for all books when the normalisation of
  long-term debts is without effect, `Debts.DetachIdle` when it is after a project has been detached.
- A state that recovery reads is safe from then on exactly if it was not read from the NEXT file
  (`StateFile.RecoveredIsSafe`); what a successful call has stored always is.
- A server that ignores Range headers can complete a resumed download only if the file has at least
  5000 bytes (`Download.RangeIgnored`, `Download.WholeReplies`).

## Model

| member | source | states |
|---|---|---|
| `CpuTypes.LookupTask` | client/cpu_sched.C:955-962 | finds the task of a result, and nothing exactly if no task runs it |
| `Deadlines.EarliestDeadline` | client/cpu_sched.C:194-248 | the result taken is the first in a total order of the runnable CPU-intensive results not looked at yet: deadline, then started before not started, then CPU time remaining, then position; none exactly if there is none |
| `Deadlines.ScheduleIfPossible` | client/cpu_sched.C:430-464 | a result is taken exactly if its task fits in the RAM left and has shared memory when that is short; flags, CPUs, RAM and anticipated debt change accordingly, nothing else does |
| `EdfPhase.Edf` | client/cpu_sched.C:508-521 | first loop, which terminates: the picks come in that order, all but the last leave a CPU free, their working sets fit in the RAM; everything looked at was picked, or its flagged task cannot run beside the picks; everything not looked at comes later in the order and has its flags as before; with a CPU left free everything was looked at |
| `EdfPhase.RoundKeeps` | client/cpu_sched.C:510-521 | one round on the first open result keeps all of that and closes exactly that result |
| `EdfPhase.PicksUseDeadlines` | client/cpu_sched.C:518 | the picks use up exactly one missed deadline of their project each |
| `EdfPhase.PicksCost` | client/cpu_sched.C:462 | the anticipated debt of a project falls by its share of the scheduling period for every pick of its results, and by nothing else |
| `DebtPhase.AssignTasks` | client/cpu_sched.C:106-133 | the task looked up for the present choice of a project is never null, because a choice without a task means that the project has no unselected runnable result with a runnable task; only open results become new choices; a project is left without a choice only if it has no such task; every choice is the one that the comparison gives, and a new one is of the highest rank (running, then with a process, then without) if no candidate of the project is misjudged |
| `Preference.BetterRank` | client/cpu_sched.C:93-133 | of two possible tasks (only a started one has a process, none is both running and preempted) the comparison says the wrong thing if and only if: one that is marked as running but not started gives way to one with a process; or a running one is held up by one that is neither running nor preempted; or one with a process is held up by one that was started and has none |
| `Preference.SettledRank` | client/app.h:157-161 | tasks that can run have a process exactly if they have been started; when such a task is also running or preempted, only one marked as running without a process is ever misjudged |
| `Preference.BetterCycles` | client/cpu_sched.C:126-130 | two possible tasks are each better than the other if and only if one is marked as running and has not been started, and the other one is preempted and has a process |
| `Preference.FavouriteBest` | client/cpu_sched.C:106-133 | if no candidate of a project is misjudged beside another, the scan chooses one of the highest rank |
| `Preference.OrderDoesNotMatter` | client/cpu_sched.C:93-133 | any of the tasks, in any order, lead to a choice of the highest rank, if and only if no candidate is misjudged beside another |
| `Preference.AllOrders` | client/cpu_sched.C:93-133 | all the tasks, in any order, lead to a choice of the highest rank (for tasks that can run and have been left as scheduling leaves them), if and only if some candidate is running with a process, or there is not both one that is marked as running without a process and one that is not and has a process or never ran |
| `Preference.RunnerStays` | client/cpu_sched.C:106-133 | once a running task has been seen, the choice is a running task |
| `Preference.OrderFails` | client/cpu_sched.C:106-133 | otherwise an order of all the tasks that leads to a choice of a lower rank |
| `DebtPhase.AssignResults` | client/cpu_sched.C:135-146 | then a project without a choice gets its first open result without a task, exactly if it has one; choices made before stay |
| `DebtPhase.Assign` | client/cpu_sched.C:101-157 | a new choice is the one that the comparison gives or, without a candidate task, the first open result without a task; every choice is marked as selected; a project is left without a choice only if it has neither an open result without a task nor one with a runnable task; either fewer runnable results are unselected than before or nothing changes |
| `DebtPhase.LargestDebt` | client/cpu_sched.C:162-190 | takes the choice of the first CPU-intensive project with the largest anticipated debt, and only that; none exactly if no such project has a choice |
| `DebtPhase.Round` | client/cpu_sched.C:524-532 | one round of the second loop lowers the unselected runnable results, or keeps them and lowers the pending choices; a result that is picked was not picked before and belongs to a project that is owed at least as much as every other project with a result that could be picked; the loop stops only when there is no such result |
| `DebtPhase.PickByDebt` | client/cpu_sched.C:523-532 | second loop, for every start that satisfies the conditions: terminates, keeps picks distinct, prefix sums below the CPUs and working sets within the RAM; picks nothing when nothing is left to run; leaves a CPU free only when nothing is left that could be picked |
| `Scheduler.EdfLeavesNothing` | client/cpu_sched.C:194-248 | with the filter at lines 204-206 commented out, the first loop stops with a CPU free only when no runnable CPU-intensive result is left for the second one |
| `Scheduler.TwoLoops` | client/cpu_sched.C:508-532 | so the second loop never adds anything to the schedule |
| `Scheduler.PassedOver` | client/cpu_sched.C:430-464 | a runnable result that was passed over for a later one, or while a CPU stayed free, has a flagged task that is larger than the final RAM left or lacks shared memory |
| `Scheduler.ScheduleCpus` | client/cpu_sched.C:468-535 | the whole function on the state of the client: the schedule has no duplicates, is sorted and fits; every result is decided on in the order of the loop: it was looked at while a CPU was free, its task was flagged by what the picks before it had left of the RAM, and it was picked exactly if its task could run; or the picks, which all come before it, use up the CPUs, and its task is only reset; edf_scheduled marks exactly the picks; missed deadlines and anticipated debts are those left by the picks; nothing but the temporary variables changes (module Selection says what this means in numbers) |
| `Scheduler.Plan` | client/cpu_sched.C:468-535 | the same, on values |
| `Scheduler.PhaseFlags` | client/cpu_sched.C:430-464 | when the first loop ends, each result has been looked at, with the outcome that its task and the picks before it call for, or it has its flags as before and, if it can run, comes after all picks, which use up the CPUs |
| `Selection.ByDeadline` | client/cpu_sched.C:194-248 | the schedule holds runnable results of CPU-intensive projects only, by deadline; at a tie those with a task come first, then those with less CPU time to go, then those listed first |
| `Selection.LeftOut` | client/cpu_sched.C:430-464 | a runnable result that the loop came to (a CPU stayed free, or one with a later deadline was picked) is left out only if its task is flagged as too large and exceeds the RAM left in the end, or if retry_shmem_time is in the future, the task is not attached, and it is flagged as needing shared memory |
| `Selection.SharedMemoryFree` | client/cpu_sched.C:447-455 | with retry_shmem_time not in the future no task is flagged anew as needing shared memory |
| `Selection.SharedMemoryShort` | client/cpu_sched.C:447-455 | with retry_shmem_time in the future a task that the loop came to and that fits is flagged as needing shared memory exactly if it is not attached |
| `Selection.TaskOfPick` | client/cpu_sched.C:430-464 | the task of a picked result is not flagged as too large, fits in the RAM, and is attached if retry_shmem_time is in the future |
| `Selection.NotLookedAt` | client/cpu_sched.C:194-248 | the task of a result that cannot run, or is not CPU-intensive, loses its too-large flag and nothing else changes in it |
| `Selection.Cost` | client/cpu_sched.C:458-463 | a project loses one missed deadline and resource_share / rrs of the scheduling period of its anticipated debt for each pick |
| `Scheduler.Reschedule` | client/cpu_sched.C:468-812 | scheduling and then enforcing, from any state: the CPU-intensive tasks marked to run fit in the RAM and, with one CPU each, number at most ncpus; a result of the new schedule without a task, whose project misses more deadlines than results of it come before, runs; and all of the schedule runs if every running task has had its time slice and has checkpointed in the last ten seconds |
| `MarkLedger.LedgerTotals` | client/cpu_sched.C:539-556 | the ledger, kept scheduled tasks plus tasks still in the heap, says that ncpus_used is the sum of avg_ncpus over all CPU-intensive tasks marked to run, and gives their working sets and their number |
| `MarkLedger.GuardRedundant` | client/cpu_sched.C:717-721 | as long as the results already processed leave a CPU free, ncpus_used >= ncpus implies that the heap is not empty: the second half of the guard is redundant, given what schedule_cpus ensures |
| `MarkLedger.PreemptKeeps` | client/cpu_sched.C:677-686 | preempting a task of the heap keeps the ledger |
| `MarkLedger.KeepKeeps` | client/cpu_sched.C:687-692 | letting a running task of the schedule go on keeps the ledger |
| `MarkLedger.RunKeeps` | client/cpu_sched.C:763-768 | marking another task keeps the ledger |
| `MarkLedger.PushKeeps` | client/cpu_sched.C:1052-1061 | making a task for a result keeps the ledger |
| `MarkLedger.LedgerUnit` | client/cpu_sched.C:717-719 | with one CPU per application version ncpus_used counts tasks |
| `Placement.MakeRoom` | client/cpu_sched.C:717-762 | a running task is looked at exactly if no CPU is free; it is preempted exactly if the project of the result misses deadlines or its time slice is over and it has checkpointed in the last ten seconds; a missed deadline is used up only then (Fairness says what that means for single tasks) |
| `Placement.StartTask` | client/cpu_sched.C:763-768 | the task of the result, made if there is none, is marked, and the totals grow by it |
| `Placement.Process` | client/cpu_sched.C:648-769 | one result of the schedule: it runs afterwards exactly if it fits and was running, or a CPU was free or freed for it; its task is flagged exactly if it is too large; at most one other task loses its mark; nothing else changes; the RAM left shrinks by its working set exactly if it runs; with one CPU each the marked tasks never outnumber the CPUs |
| `Turns.HeapClear` | client/cpu_sched.C:657-671 | after its turn no task of a result is in the heap any more |
| `Turns.TurnDecides` | client/cpu_sched.C:647-769 | the turn of a result decides for good: it runs at the end of the loop exactly if at its turn it fits and is running or has a CPU free or freed for it; later turns neither preempt nor start it, nor change the flag of its task |
| `Turns.MissedLeft` | client/cpu_sched.C:734-736 | over the loop a project loses at most one missed deadline for each of its results in the schedule, and tasks are made for results of the schedule only |
| `Turns.UrgentRuns` | client/cpu_sched.C:724-768 | a result without a task whose project misses more deadlines than results of it come before in the schedule is started, whatever was running |
| `Enforcer.MarkRunning` | client/cpu_sched.C:612-619 | every task starts marked exactly if it was scheduled and its result can run |
| `Enforcer.MakeHeap` | client/cpu_sched.C:539-564 | the heap holds exactly the marked CPU-intensive tasks, once each, and ncpus_used is their sum |
| `Enforcer.PreemptExtras` | client/cpu_sched.C:624-636 | the loop ends with at most ncpus in use, never looks at the front of an empty heap, and preempts no more than it has to: nothing when there are no extras, and without the last preemption too many CPUs would be in use |
| `Enforcer.RunSchedule` | client/cpu_sched.C:647-769 | the loop over the schedule is a sequence of turns, one for each result; the ledger holds all through it, kept tasks stand for results already processed, and their CPUs stay below the prefix sums of the schedule |
| `Enforcer.TrimToRam` | client/cpu_sched.C:777-795 | of the tasks left in the heap exactly those stay marked that fit beside the ones that stayed before them; no other task changes |
| `Enforcer.GreedyStep` | client/cpu_sched.C:777-795 | one more task keeps that choice greedy, with the RAM left as the source counts it |
| `Enforcer.LaunchBackground` | client/cpu_sched.C:804-811 | every runnable result of a project that is not CPU-intensive has a marked task, and CPU-intensive tasks are not touched |
| `Enforcer.RunsKept` | client/cpu_sched.C:775-811 | the two loops after the one over the schedule neither preempt nor start a result of the schedule |
| `Enforcer.GreedyKept` | client/cpu_sched.C:804-811 | starting background tasks leaves the choice among the running tasks as it was |
| `Enforcer.Conclude` | client/cpu_sched.C:579-812 | all phases together: RAM bound, CPU bound; a result of the schedule is marked exactly if its turn marks it, the running tasks left over exactly if they fit one after the other, no other CPU-intensive task is; left-over tasks are flagged exactly if they are preempted, and no other flag changes after the turns; tasks are made only for results of the schedule or background results, background tasks run exactly if they can |
| `Enforcer.EnforceSchedule` | client/cpu_sched.C:579-812 | the same on the state of the client, for every state and every schedule that schedule_cpus can leave |
| `Enforcer.UrgentResultRuns` | client/cpu_sched.C:579-812 | of the marks that enforcing leaves: a result without a task whose project misses more deadlines than results of it come before in the schedule is marked to run |
| `Fairness.PreemptedAfterSlice` | client/cpu_sched.C:724-750 | when there are CPUs for all running tasks and no project of the schedule misses a deadline, a running task that enforcing preempts is flagged as too large, or it has run for a scheduling period or more and has checkpointed less than ten seconds ago |
| `Fairness.CutShortForDeadlines` | client/cpu_sched.C:724-750 | with CPUs for all running tasks: the number of those that are preempted in the middle of a time slice or ten seconds or more after a checkpoint, and not as too large, is at most the number of deadlines that the projects miss |
| `Fairness.LoopRam` | client/cpu_sched.C:685-768 | at any point of the loop over the schedule the RAM left is what the results that run so far have not taken |
| `Fairness.HeldBack` | client/cpu_sched.C:717-762 | a result of the schedule that fits beside those before it that run, and does not run, waits for a running task of another result that is in the middle of its time slice or has not checkpointed for ten seconds; and its project misses no more deadlines than it has results before it in the schedule |
| `Fairness.FlagOfScheduled` | client/cpu_sched.C:677-715 | a result of the schedule runs only if it fits beside those before it that run; the task that it had is flagged as too large if and only if it does not |
| `Fairness.NobodyWaits` | client/cpu_sched.C:647-769 | when every running task has had its time slice and has checkpointed in the last ten seconds, a result of the schedule runs if and only if it fits beside those before it that run |
| `Fairness.AllOfItRuns` | client/cpu_sched.C:468-812 | and when the schedule fits in the RAM as a whole, as schedule_cpus sees to, all of it runs |
| `Fairness.FlagOfOthers` | client/cpu_sched.C:775-795 | a CPU-intensive task that is not of the schedule is not flagged if it stays marked, and newly flagged only if it does not fit beside the marked tasks |
| `Fairness.NewTasks` | client/cpu_sched.C:1052-1061 | tasks are made for results of the schedule and runnable background results only; they start their time slice now, count as never checkpointed, and have no working set yet |
| `Fairness.BackgroundResultsRun` | client/cpu_sched.C:804-811 | every runnable result of a project that is not CPU-intensive runs |
| `Debts.Accounts.ResetAccounting` | client/cpu_sched.C:250-263 | clears the wall time of every project and starts a new interval |
| `Debts.Accounts.AppFinished` | client/cs_apps.C:179-182 | whatever kind of project a finished task belongs to, its wall time and the total grow by the whole interval, every other account and the start of the interval stay, and the difference between the total and the sum of the wall times stays |
| `Debts.Accounts.RecordTasks` | client/cpu_sched.C:308-316 | every scheduled task of a CPU-intensive project is charged the interval |
| `Debts.Accounts.Shares` | client/cpu_sched.C:322-335 | the sums of resource shares that the debts are divided by |
| `Debts.Accounts.CreditAll` | client/cpu_sched.C:337-363 | each debt moves by the share of the total wall time less the wall time used, and the totals are the sums over the new debts |
| `Debts.Accounts.NormaliseAll` | client/cpu_sched.C:377-397 | subtracts the means, and clips short-term debts |
| `Debts.Accounts.AdjustDebts` | client/cpu_sched.C:266-400 | the whole pass with its early returns: under a second, over two periods, no CPU-intensive project |
| `Debts.LongTermSumsToZero` | client/cpu_sched.C:367-400 | after every completed pass the long-term debts of CPU-intensive projects sum to zero |
| `Debts.ShortTermBounded` | client/cpu_sched.C:380-388 | and each of their short-term debts is within 86400 of zero |
| `Passes.Charges` | client/cpu_sched.C:308-316 | a pass charges the interval to the total and to the project once for every scheduled task of a CPU-intensive project, and changes nothing else |
| `Passes.PassStarts` | client/cpu_sched.C:266-400 | a pass of one second to two scheduling periods, with a CPU-intensive project, starts a new interval with no wall time; short-term debts of projects that cannot run become zero, and background projects are left alone |
| `Passes.LongTermMoves` | client/cpu_sched.C:337-390 | in such a pass the long-term debt of every CPU-intensive project moves by its share of the total less what it used, and by the mean of all of them |
| `Passes.ShortTermMoves` | client/cpu_sched.C:337-397 | likewise the short-term debts of those that can run, cut off at 86400 on both sides |
| `Passes.OtherCalls` | client/cpu_sched.C:266-306 | within a second of the last pass nothing changes; after more than two periods the recorded wall time is dropped and the debts stay; without a CPU-intensive project nothing changes |
| `Debts.NormalisationIdle` | client/cpu_sched.C:322-390 | from a zero sum and any books, the normalisation of long-term debts changes nothing if and only if the total wall time is to the wall time used by CPU-intensive projects as prrs is to the shares of those whose debt moves |
| `Debts.NormalisationEffect` | client/cpu_sched.C:322-390 | the same for debts of any sum: exactly if what is owed and what is entitled make up what was used |
| `Debts.BackgroundBalance` | client/cpu_sched.C:322-390 | if the total is the wall time of the attached projects: exactly if background projects hold the same part of the wall time as of the shares in prrs |
| `Debts.BackgroundTaskUpsets` | client/cs_apps.C:179-182 | concrete books for which it does change something, reached from books without wall time or debts when a task of each of two projects finishes, one of them a background project |
| `Debts.DetachIdle` | client/client_state.C:1458-1527 | when a CPU-intensive project with recorded wall time is detached, that time stays in the total; from sound books in balance the next pass leaves long-term debts alone if and only if the long-term debt of the detached project was exactly its wall time, or zero if no other project is active |
| `Debts.DetachUpsets` | client/client_state.C:1458-1527 | concrete sound books, reached in the same way, of two CPU-intensive projects: detaching one makes the normalisation change the debt of the other |
| `Debts.SoundIdle` | client/cpu_sched.C:322-390 | when all recorded wall time belongs to attached CPU-intensive projects, it never does |
| `Debts.RunExact` | client/cpu_sched.C:250-400 | over any run of passes, finished tasks and changes of runnability from such books, every long-term debt changes by exactly its share entitlement less the wall time used, and the sum stays zero |
| `Drift.RunMovesExact` | client/cpu_sched.C:250-400 | over any run that also attaches and detaches projects and forgets debts (client/app_control.C:765), the debt of a project that is still attached moves by what it earned in every completed pass, less the drift of the pass, and to zero when it is forgotten |
| `Drift.DriftIsSurplus` | client/cpu_sched.C:366-390 | in a completed pass the drift is the surplus, shared evenly by the CPU-intensive projects, if prrs holds only shares of such projects; the surplus is the sum of long-term debts and the wall time in the total that is not that of an attached CPU-intensive project |
| `Drift.NextSurplus` | client/cpu_sched.C:250-400 | what every event adds to the surplus: a finished background task its wall time, a detached project its wall time less its debt, a forgotten debt its opposite; a completed pass brings it to zero, an ignored one drops the wall time, and nothing else changes it |
| `Drift.RunSurplus` | client/cpu_sched.C:250-400 | the same summed over any run |
| `Collector.CountProjectFiles` | client/client_state.C:963-972 | counts exactly the files that projects refer to |
| `Collector.ScanResults` | client/client_state.C:974-1044 | deletes in place exactly the acknowledged results that no task runs, reports exactly those that must be, and counts what the others refer to |
| `Collector.ScanWorkunits` | client/client_state.C:1046-1066 | deletes exactly the workunits that no remaining result uses |
| `Collector.FoundNewerDuringScan` | client/client_state.C:1076-1084 | what is found in the half-deleted vector is what would be found in the whole one |
| `Collector.ScanAppVersions` | client/client_state.C:1068-1095 | deletes exactly the unused application versions that the vector supersedes as it was before the pass |
| `Collector.CountAppVersionFiles` | client/client_state.C:1097-1104 | counts exactly the files of the versions that stay |
| `Collector.CountXferFiles` | client/client_state.C:1106-1113 | counts exactly the files of transfers |
| `Collector.ScanFiles` | client/client_state.C:1115-1141 | deletes exactly the files that nothing refers to and that are not sticky, with a non-negative status and not marked for deletion |
| `Collector.SupersededDuringScan` | client/client_state.C:1068-1095 | deletions so far do not change whether a version is superseded |
| `Collector.LatestVersion` | client/client_state.C:1076-1084 | an unused version goes if and only if it is below the maximum for its application and plan class, since that maximum is never deleted |
| `Collector.CollectSafe` | client/client_state.C:946-1147 | if check_all and the other links hold, they hold after a collection: no record, task or transfer that survives refers to something deleted |
| `Collector.CollectKeepsSchedule` | client/client_state.C:946-1147 | the collector does not look at ordered_scheduled_results: from a schedule of listed results, every scheduled result is listed after a collection, if and only if none of them is acknowledged without a task |
| `Collector.CollectClean` | client/client_state.C:946-1147 | after a collection nothing is left to collect |
| `Collector.CleanIsFixed` | client/client_state.C:946-1147 | a graph is unchanged by a collection, up to report marks, if and only if nothing in it is collectable |
| `Collector.GarbageCollectAlways` | client/client_state.C:946-1147 | the survivors are exactly those of the reachability specification, and the result says whether anything was deleted |
| `Collector.FilesLeft` | client/client_state.C:962-1141 | a listed file survives a collection if and only if a project, a surviving record or a transfer refers to it, or it is sticky, has a status of 0 or more, and is not marked for deletion |
| `Collector.RecordsLeft` | client/client_state.C:974-1095 | a result survives if and only if it is not acknowledged or a task runs it; a workunit, if a surviving result uses it; a version, if a surviving result uses it or no listed version of the same application and plan class has a higher number |
| `Collector.ResultsReported` | client/client_state.C:990-1030 | a result is reported afterwards if and only if it was before, or it survives and is acknowledged or one of the files that it needs or makes has a status other than 0, 1 and 2 |
| `Collector.CollectTwice` | client/client_state.C:946-1147 | an immediate second collection deletes nothing and returns false |
| `Detach.StopTransfers` | client/client_state.C:1378-1389 | removes exactly the transfers of the project from both sets, and the links to them |
| `Detach.AckResults` | client/client_state.C:1395-1404 | marks exactly the results of the project as acknowledged |
| `Detach.StopProject` | client/client_state.C:1376-1407 | with the tasks of the project erased, the state before the first collection |
| `Detach.ResetProject` | client/client_state.C:1366-1447 | the stages of a reset, with and without an anonymous platform |
| `Resets.ResetRecords` | client/client_state.C:1366-1447 | after a reset no result, workunit, task or transfer of the project is left, and nothing is scheduled; of the other projects exactly what an ordinary collection would leave |
| `Resets.ResetVersions` | client/client_state.C:1416-1442 | its applications stay if and only if the platform is anonymous and the project is not being detached; then of its versions exactly those stay that no listed version of the same application and plan class exceeds; those of other projects as after an ordinary collection |
| `Resets.ResetFiles` | client/client_state.C:1366-1447 | of its files exactly those stay that its remaining versions use, or that are sticky, have a status of 0 or more and are not marked for deletion; those of other projects as after an ordinary collection |
| `Detach.DetachLeavesResults` | client/client_state.C:1366-1487 | results and workunits left are exactly those of other projects that an ordinary collection would leave, in order |
| `Detach.DetachLeavesVersions` | client/client_state.C:1366-1487 | the same for application versions |
| `Detach.DetachLeavesFiles` | client/client_state.C:1366-1487 | the same for files, although files are collected twice and then erased |
| `Detach.DetachLeavesRest` | client/client_state.C:1366-1487 | projects, applications, tasks and transfers left are exactly those of other projects |
| `Detach.DetachedIsFree` | client/client_state.C:1458-1487 | no record, task, transfer or scheduled result of the project is left |
| `Detach.DetachedSafe` | client/client_state.C:1458-1487 | check_all and the other links hold on what is left |
| `Detach.DetachProject` | client/client_state.C:1458-1487 | the whole function on the state of the client |
| `Merge.LookupApp` | client/client_state.C:665-671 | finds a listed application of the project with that name, and none exactly if there is none |
| `Merge.LookupFile` | client/client_state.C:702-709 | the same for files |
| `Merge.LookupWorkunit` | client/client_state.C:681-687 | the same for workunits |
| `Merge.LookupResult` | client/client_state.C:673-679 | the same for results |
| `Merge.LookupVersion` | client/client_state.C:689-700 | the same for application versions, by application, platform, number and plan class |
| `Merge.LinkFiles` | client/client_state.C:776-787 | links every file reference by name within the project, and fails exactly if one is missing |
| `Merge.AddAppsExact` | client/cs_scheduler.C:506-521 | every application of the reply is there afterwards, and every new one is from the reply |
| `Merge.AddFilesExact` | client/cs_scheduler.C:522-538 | the same for files |
| `Merge.AddVersionsExact` | client/cs_scheduler.C:546-580 | every version of the reply that can be linked is there afterwards, and every new one is as the reply describes; the failed files of the versions that were listed already when their entry was handled are reset, and no other status differs |
| `Merge.KnownBefore` | client/cs_scheduler.C:558-572 | those files include all of every version that was listed before the reply and that an entry describes |
| `Merge.AddWorkunitsExact` | client/cs_scheduler.C:581-594 | every workunit of the reply that can be linked is there afterwards, and every new one is as the reply describes; the failed input files of the new workunits are reset, and no other status differs |
| `Merge.AddResultsExact` | client/cs_scheduler.C:596-626 | the same for results |
| `Merge.MergeDeletes` | client/cs_scheduler.C:539-545 | marks exactly the listed files of the project with the given names |
| `Merge.MergeAcks` | client/cs_scheduler.C:633-645 | acknowledges exactly the listed results of the project with the given names |
| `Merge.MergeAborts` | client/cs_scheduler.C:647-661 | reports exactly those of the named results that a task runs |
| `Merge.MergedKeeps` | client/cs_scheduler.C:505-661 | for any reply: check_all and the other links hold, keys stay unique, links never cross projects, every result runs a version of its workunit's application, and records are only added |
| `Merge.MergeReply` | client/cs_scheduler.C:505-661 | the same on the state of the client |
| `Replies.ReplyHandled` | client/cs_scheduler.C:505-661 | after any reply all its applications and files are listed; every version, workunit and result of it whose references are listed before, or come in the same reply, is listed; deletion marks, acknowledgements and reports grow by exactly the named records; every new record is as an entry of the reply describes it |
| `Replies.StatusesReset` | client/cs_scheduler.C:558-594 | files of new workunits, and of listed versions that are in the reply again, have no failure left; a status that differs was a failure and is now 0 |
| `Replies.DeletedFilesGo` | client/cs_scheduler.C:539-733 | after the collection at the end of the reply no file that the server has asked to delete is listed, unless something that is left refers to it |
| `Lifecycle.CollectMergeable` | client/client_state.C:946-1147 | a collection of a graph that can be merged into leaves one: keys unique, links within projects, every network transfer owned, every result running a version of the application of its workunit |
| `Lifecycle.DetachMergeable` | client/client_state.C:1458-1487 | so does detaching a project |
| `Lifecycle.ResetMergeable` | client/client_state.C:1366-1447 | so does resetting one, with its applications kept or not |
| `Lifecycle.ApplyMergeable` | client/client_state.C:946-1487 | so does every other event: replies, new projects and their files, tasks, transfers that are made, start, end and are erased, file statuses, and new schedules |
| `Lifecycle.RunSound` | client/client_state.C:946-1487 | over any run of all these events the preconditions of collecting, detaching and merging hold again and addresses stay fresh |
| `Lifecycle.EveryRun` | client/client_state.C:946-1487 | so they hold, and check_all with them, in every graph that these events reach from a client without projects |
| `StaleSchedule.ScheduleOverRuns` | client/client_state.C:946-1487 | over any run, the schedule refers to listed results, if and only if no collection since it was made or cleared has found an acknowledged result without a task in it |
| `StaleSchedule.AckedIsLost` | client/cs_scheduler.C:633-733 | in every world with a result that no task runs: scheduling it, a reply that acknowledges it, and the collection at the end of the reply leave the schedule with a deleted result |
| `StaleSchedule.ScheduleCanDangle` | client/cs_scheduler.C:505-733 | such a run of five events from a client without projects |
| `StateFile.Files.WriteNew` | client/cs_statefile.C:462-488 | opening and writing the new file, with failures and loss of power at every step |
| `StateFile.Files.MoveOld` | client/cs_statefile.C:491-530 | deleting the previous file and moving the present one there (StoredLeavesPrevious says when that is done), with failures and loss of power at every step |
| `StateFile.Files.Rotate` | client/cs_statefile.C:490-568 | that, and moving the new file to its name, likewise |
| `StateFile.Files.WriteStateFile` | client/cs_statefile.C:447-571 | the function with its two attempts ends with the disk and the result that the step machine gives, for every sequence of failures and every point where power is lost |
| `StateFile.Files.ChooseStateFile` | client/cs_statefile.C:84-108 | nothing is read at startup exactly if no file is complete; what is read is complete, and the newest complete file if the files are in the order that every run keeps |
| `StateFile.StepKeeps` | client/cs_statefile.C:447-571 | every operation keeps NEXT newer than NAME newer than PREV among complete files, and the last stored state or a later one under NAME or, without it, PREV |
| `StateFile.RecoverFinds` | client/cs_statefile.C:84-108 | recovery then finds the newest complete file, and it holds the last stored state or a later one |
| `StateFile.CallKeeps` | client/cs_statefile.C:447-571 | a call that returns 0 has put its state under NAME; one that fails or is cut off keeps the invariant |
| `StateFile.StoredIsDurable` | client/cs_statefile.C:84-571 | once a call has returned 0, recovery finds what it stored or something later, after any further calls, failures and crashes |
| `StateFile.StoredLeavesPrevious` | client/cs_statefile.C:447-571 | a call that stores on its first attempt, from a disk with a state file, leaves that file under PREV; on the second attempt PREV is that file too, or what it was before, or gone; without a state file PREV stays |
| `StateFile.OneFailureIsMended` | client/cs_statefile.C:447-571 | if at most one file operation fails, whichever, the call stores: the new state is under NAME, the old one under PREV, and nothing under NEXT |
| `StateFile.TwoFailuresAreNot` | client/cs_statefile.C:455-472 | two failures to open the new file end the call with an error and the disk as it was |
| `StateFile.RecoveredIsSafe` | client/cs_statefile.C:84-571 | in every state that keeps the invariant, what recovery finds, or something newer, is found again after every continuation, if and only if recovery did not find it in NEXT |
| `StateFile.RecoveredCanBeLost` | client/cs_statefile.C:84-571 | it can be lost altogether: on a fresh installation the first call is cut short after writing everything, and the next one after opening the new file |
| `Messages.Queue.SendMsg` | lib/app_ipc.C:296-301 | the channel takes a message exactly if it is empty |
| `Messages.Queue.Send` | client/app.C:625-638 | the message is appended to what is in flight |
| `Messages.Queue.Poll` | client/app.C:640-661 | moves the first queued message into an empty channel, and what is in flight stays the same |
| `Messages.Queue.Purge` | client/app.C:664-685 | removes the last queued message exactly if it is the given one |
| `Messages.Task.DoSuspend` | client/app_control.C:853-864 | cancels a queued resume, or sends a suspend |
| `Messages.Task.DoUnsuspend` | client/app_control.C:869-883 | cancels a queued suspend, or sends a resume |
| `Messages.SuspendSends` | client/app_control.C:853-864 | a suspension takes back a resumption that is the last message of the queue, and is appended to what is in flight if there is none |
| `Messages.ResumeSends` | client/app_control.C:869-883 | the same for a resumption |
| `Messages.SuspendAndBack` | client/app_control.C:853-883 | behind a full channel, suspending and resuming at once leaves channel, queue and task as they were |
| `Messages.Task.Preempt` | client/cpu_sched.C:1133-1162 | quits only if asked to and something has been checkpointed, suspends if not |
| `Messages.ApplyKeeps` | client/app_control.C:853-883 | every event keeps undelivered suspend and resume messages alternating, starting with the opposite of what the application is |
| `Messages.TakingAllAgrees` | client/app_control.C:853-883 | an application that took everything in flight would be suspended if and only if the task state is SUSPENDED |
| `Messages.OthersKept` | client/app.C:664-685 | only suspend and resume messages are ever cancelled |
| `Messages.EveryRun` | client/app_control.C:772-883 | all of that in every reachable state, and delivery is in order with nothing lost but pairs of opposite messages with nothing left between them |
| `Messages.Drains` | client/app.C:640-661 | when the client sends nothing more, polls and takes empty the line and leave the application suspended exactly if the task is |
| `Throttle.Limiter.CheckUsageLimit` | client/cs_prefs.C:125-137 | asks for a pause exactly if the interval counts and the accumulator is below zero, and updates both static variables |
| `Throttle.RunKeeps` | client/cs_prefs.C:125-137 | over any polls with limits in [0,100] the accumulator stays in (-10,0] and is what was allowed less what was charged |
| `Throttle.ChargedWithinTenSeconds` | client/cs_prefs.C:125-137 | time charged as running is at least what the limits allow and less than ten seconds more, even if limits change |
| `Throttle.StretchWithinTenSeconds` | client/cs_prefs.C:125-137 | in any stretch of a run the two differ by less than ten seconds |
| `Throttle.FixedLimit` | client/cs_prefs.C:125-137 | for a fixed limit of L percent what is allowed is L percent of the time that counts |
| `Throttle.SteadyPolls` | client/cs_prefs.C:125-137 | for polls that come half a second up to ten seconds apart under a fixed limit below 100 percent, the time charged as running is at least that percentage of all the time that has passed, and less than ten seconds more |
| `Download.Transfer.InitDownload` | client/file_xfer.C:54-71 | goes on at the end of a file that is too short, and starts again with one that is not; the file is emptied or opened for appending (client/http_curl.C:429-442) |
| `Download.Transfer.Done` | client/file_xfer.C:276-346 | truncation after an error or a short message, and trimming of a file that was sent as a whole |
| `Download.EpisodeKeepsPrefix` | client/file_xfer.C:54-346 | after an episode with a server that honours Range, whatever status it or a proxy answers with, the file is a prefix of the content, and an unfinished download has lost nothing |
| `Download.RunKeepsPrefix` | client/file_xfer.C:54-346 | over any sequence of episodes |
| `Download.Completes` | client/file_xfer.C:54-346 | an episode that sends all that is missing completes the file |
| `Download.RangeIgnored` | client/file_xfer.C:309-346 | when a server ignores Range and sends the whole file, the result is the content if and only if that has at least 5000 bytes; if it has fewer, the file stays as it was |
| `Download.WholeReply` | client/file_xfer.C:54-346 | a reply with the whole content and status 200 completes a download from the beginning, and a resumed one if and only if the content has at least 5000 bytes; otherwise it changes nothing |
| `Download.WholeReplies` | client/file_xfer.C:54-346 | so a part of a shorter content is never completed by any number of such replies, and everything else by the first one |
| `Download.EpisodeLength` | client/file_xfer.C:54-346 | the length of the file after any episode: an error costs at most the last 5000 bytes and nothing that was there before; of what arrives without an error fewer than 5000 bytes are dropped, unless they complete the file; a message leaves the file as it was |
| `Slots.TaskSet.IsSlotInUse` | client/app.C:370-378 | true exactly if a task has the slot |
| `Slots.TaskSet.GetFreeSlot` | client/app.C:391-409 | the least slot that is not in use and has a usable directory; it terminates if there is one, and with usable directories the slot is at most the number of tasks |
| `Slots.Pigeonhole` | client/app.C:391-409 | one of the first n+1 slots is not used by n tasks |
| `Slots.TaskSet.MakeTask` | client/cpu_sched.C:1052-1061 | a new task gets a slot of its own |
| `Slots.TaskSet.Parse` | client/app.C:591-617 | the tasks taken from the state file are, in order, exactly the first one for every slot that was not in use; no slot is shared |
| `Slots.TaskSet.EraseTask` | client/cs_apps.C:68-70 | a finished task frees its slot |
| `Urls.FileInfo.GetInitUrl` | client/client_types.C:849-881 | the first URL of the wanted kind, and none exactly if there is none |
| `Urls.FileInfo.GetNextUrl` | client/client_types.C:885-896 | the next URL of the wanted kind after the current one; after the last one none, and back at the start |
| `Urls.FileInfo.TryAll` | client/client_types.C:885-896 | a cycle tries every wanted URL exactly once in list order and ends where it began |
| `Urls.FileInfo.TwoCycles` | client/client_types.C:849-896 | a cycle yields the positions of all URLs of the wanted kind, once each, in list order, and the next cycle yields them again |
| `Transfers.Client.StartNewFileXfer` | client/cs_files.C:53-74 | a transfer may start exactly if the network is not suspended and both limits leave room for it |
| `Transfers.Client.Remove` | client/file_xfer.C:191-208 | takes exactly the given transfer out of the set |
| `Transfers.Client.Poll` | client/pers_file_xfer.C:151-244 | starts, keeps or releases the transfer of a persistent one, and does nothing to a finished one |
| `Transfers.Client.Suspend` | client/pers_file_xfer.C:362-372 | releases the transfer, which can start again later |
| `Transfers.Client.Abort` | client/pers_file_xfer.C:306-315 | releases the transfer and finishes |
| `Transfers.Client.MakeTransfers` | client/cs_files.C:195-214 | every file that needs one and has none gets a persistent transfer, linked both ways |
| `Transfers.Client.EraseDone` | client/cs_files.C:216-270 | erases exactly the finished persistent transfers |
| `Transfers.CreateStarts` | client/pers_file_xfer.C:89-146 | with the network not suspended and room within both limits a transfer starts for the file, in its direction, and is in the set; otherwise the set stays |
| `Transfers.MakeLinks` | client/cs_files.C:195-214 | a file without a persistent transfer gets one in the given direction, linked both ways, and nothing else changes |
| `Transfers.ReleaseEnds` | client/pers_file_xfer.C:151-315 | a released transfer is not in the set any more, and all others are |
| `Transfers.RestartMoves` | client/file_xfer.C:239-271 | a restart leaves the set as it was, and without the transfer if inserting it fails |
| `Transfers.BusyIs` | client/cs_files.C:53-74 | the two counts are the numbers of transfers in the direction, and for the project |
| `Transfers.CreateKeeps` | client/pers_file_xfer.C:89-146 | starting a transfer keeps limits and links |
| `Transfers.ReleaseKeeps` | client/pers_file_xfer.C:151-315 | so does ending one |
| `Transfers.RestartKeeps` | client/file_xfer.C:239-271 | so does removing an upload and inserting it again, whether inserting works or not |
| `Transfers.EraseKeeps` | client/pers_file_xfer.C:58-62 | so does deleting a finished persistent transfer |
| `Transfers.OnePerFile` | client/cs_files.C:195-215 | every file has at most one persistent transfer, linked both ways |
| `Transfers.RunKeeps` | client/cs_files.C:53-274 | over any run each direction stays within max_file_xfers, and within max_file_xfers_per_project for every project, and the links hold |
| `Transfers.RunListed` | client/file_xfer.C:212-271 | after any run, the transfer that a persistent transfer points at is in the set, as check_all wants it (client/check_state.C:143-146), if and only if it was not taken out for a restart whose insertion failed |

## Left out

- Order in the heap of running tasks: any running task may be at its front. `deadlines_missed`, which the comparison reads, changes just before the heap is popped, so the front need not be the most preemptable task.
- Records are values in the vectors of the client, and pointers to them are addresses or positions: writing a field through one of several pointers to the same record is modelled as replacing the record, so aliasing between C++ objects is not captured.
- Shares of zero: where all resource shares concerned are zero the source divides by zero; the model takes the quotient as zero. Rounding of floating point numbers is not modelled.
- `runnable`, `potentially_runnable`, the round-robin simulation, `available_ram`, and the estimates of remaining time: parameters or fields. Work fetch is not modelled.
- Starting, suspending and killing processes at the end of `enforce_schedule` (lines 813-908 of client/cpu_sched.C), swap space, and the shared memory retry time that a failed start sets.
- Enforcer.EnforceSchedule: requires the schedule that `schedule_cpus` leaves, with no result of it deleted since (`StaleSchedule.ScheduleOverRuns` says when that is so); a schedule made for another number of CPUs is scheduled again before it is enforced, and is not considered. avg_ncpus is taken as not negative.
- Scheduler.ScheduleCpus: working sets and avg_ncpus are taken as not negative.
- Fairness.CutShortForDeadlines: numbers of missed deadlines are taken as not negative, like working sets in `Fairness.AllOfItRuns` and `Fairness.FlagOfOthers`.
- Collector.CollectSafe: beyond check_all it requires links that check_all does not look at: the files of projects are listed, the application version of a result is listed, a task agrees with its result, and a file and its persistent transfer point at each other (`Transfers.RunKeeps` shows how the last one is kept, `Lifecycle.EveryRun` that all of them are). check_all itself does not hold between a restart of an upload whose insertion failed and the next poll (`Transfers.RunListed`). Without the last one the branch that deletes the transfer of an unreferenced file could leave a dangling pointer.
- The `result` field of a file record, which the source never sets to anything but null; error texts and exit codes of reported results; the state of an aborted process; deleting files on disk.
- Merge.MergeAborts: an abort of a result without a task changes the state of the result only, which is not part of the graph.
- Merge.MergeReply: updates of records that are already known (names, URLs and signatures of files, performance fields of versions), the user interface fields of results, abort requests for results that have not started (they change the state of a result only), preferences, and errors before project files are linked again. The addresses of new records are taken to be unused.
- Detach.DetachProject: account files, project directories, statistics and the files that name the project.
- StateFile.StoredIsDurable: assumes that a rename is atomic, that a failed operation leaves the files alone except for the one being written, and that only complete files pass `valid_state_file`. Renaming on Windows and the contents of the file are not modelled.
- The timeout of message queues and restarting an application that does not answer; `msg_queue_purge` leaves `last_block` alone, so nothing ties it to the contents of the queue. Graphics, heartbeat and status messages.
- Lifecycle.EveryRun: the states of results and tasks, notes of results that are ready to be reported by finished tasks, and everything that `Lifecycle.RunSound` leaves out.
- Lifecycle.RunSound: restarts of uploads whose insertion fails, the user's own files of a project, and records that are read from a state file; `link_project_files` is an event that sets the files of a project to any listed files of it.
- Throttle: other reasons to suspend. Limits outside 0 to 100.
- Download.EpisodeKeepsPrefix: files of unknown size (`nbytes` is 0, where the source skips the checks of the size); a proxy message that happens to complete the size of the file, a partial file from a server that ignores Range, a crash in the middle of an episode, and failures to open the files for trimming.
- Slots.TaskSet.GetFreeSlot: requires a free slot with a usable directory; without one the source loops forever.
- Urls.FileInfo.GetNextUrl: requires the state that `get_init_url` leaves or a later one for the same kind of URL; the list is not replaced in between.
- Transfers: contents of uploads, the give-up period (after which the source goes on with a deleted transfer), back-off times, bandwidth limits, and checking the files that have arrived.
- XML parsing and printing, the user interface and account manager protocols, host information, benchmarks, logging and configuration.

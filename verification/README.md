# Upstart init: a verified model

A Dafny model of the core of the Upstart init daemon: the supervisor of jobs, events and classes, the condition
language of `start on` and `stop on`, the in-place expansion of `$NAME` and `${NAME:-word}`, the job log stream and the
respawn limiter. Check it with `dafny verify dfyconfig.toml`.

## The supervisor

`Supervisor` and `SupervisorSteps` describe the daemon as total functions on a value `Sys`: heaps of jobs, classes and
events that only grow, so that a reference to a freed object can be told from a good one, plus the event list, the table
of registered classes and the classes of the configuration files. Where the program would fail an assertion, lose a pid,
reach a branch marked as not reached or use freed memory, the result is a `Trap`. A run is any sequence of inputs from
the empty system: an event is emitted, the list is polled, a command arrives, a process is set up, fails to be set up,
reports ready or dies, a kill timer fires, a configuration file appears, changes or vanishes, a hash table is walked in
another order.

`SupervisorRuns.EveryRunSafe` is the main theorem: no run traps, and every state reached satisfies `Safe`. `Safe` holds
the balance of event references (`Ledger`), the links between jobs, events, classes and files (`Invariant`), the
agreement of pids, timers, blockers and goals with the seventeen job states (`JobMachine`), the history of events
(`EventSteps.Chronicle`), a registry that is up to date (`Invariant.Current`) and the truth of all start conditions
(`StartProgress.Trusty`). `Guarantees` says what follows in the program's own terms, `Reach` which classes an event
reaches, `Registry` who is registered after a file changes, `RespawnRuns` how often a job is respawned, `Failures` which
events fail, `EventOrder` in which order events are taken up.

What a step does is told from the state before it, by tables that do not use the program's own decision table:
`Arrival` has the place a job goes to from every state and the whole job on arrival, `ProcessEnds` what the death of each
process comes to, `CommandOutcomes` and `ConditionOutcomes` what commands and conditions do to their job and with which
variables.

`Daemon.Init` is the supervisor with mutable fields: job_finished, job_change_state, event_poll, the loops over classes
and instances, job_class_event_block and the registry searches are loops proved equal to the recursive functions; what
has no loop of its own repeats its function statement by statement, so that `Daemon.Init.ServeAll` inherits every theorem
above. It builds environments with the mutable tables of `Environ` and `ConditionEnviron`; it calls the entry into a
state, the verdict on a death, the handling of a condition and the expansion of a name as functions, and the in-place
versions of the last two are proved on their own in `OperatorTree` and `ExpansionBuffer`.

Four things one would expect do not hold of the program; each comes with a concrete run and the exact condition, in
`Shortfalls`, `Reach` and `JobLog`:

- A job whose security process cannot be set up stays in the security state for ever (`init/job.c:2610-2613` does not
  move it on).
- A job runs without its main process if a post-start or pre-stop script of it ends, or cannot be set up, while the job
  is to start and its main process is already dead; this is the only way.
- An event does not reach the classes that come after one whose instance name cannot be expanded: the loop over classes
  ends there (`init/event.c:413-414`), and the event may be freed before they see it.
- A full file system can remove half a read from a log: what is removed is the receive buffer, which may begin with the
  end of a read that was written in part (`init/log.c:600-603`).

Assumptions about the outside, all visible in `SupervisorSteps.Possible` and `Supervisor.Oracle`: allocation never fails;
`fork` succeeds; whether AppArmor is available does not change within one transition; the kill timeout is positive, as
asserted at `init/job_process.c:1398`; the setup pipe of a process reports before its death is reaped, and that of a main
process before it reports ready by one of the `expect` ways; the outside does not report on processes that do not exist.
Pattern matching, init's own environment and the variables of a job's events are parameters (`World`). Bookkeeping of
the model only: `Sys.history`, and in the log the fields `taken`, `spans` and `drops`.

## Conditions, text, logs

`Condition` has the and/or trees whose leaves remember the event that satisfied them; `OperatorTree` is the same tree as
an array of nodes updated in place. `ConditionText` has the grammar and the operator-stack parser, `ConditionParser` the
parser as a class, `ConditionPrint` the printer, `ConditionStore` the post-order records that survive a re-exec.
`Environ` has environment tables. `Expansion` reads a string into a word and gives the word a meaning;
`ExpansionBuffer` rewrites an array in place, as the program does, and is proved equal. Where the comment at
`init/environ.c:470-472` and the code disagree about `${NAME+word}`, the model follows the code at
`init/environ.c:703-716`. `JobLog` follows bytes from a job's terminal to its log file, `Respawn` the window of respawns.

## Model

| member | source | states |
|---|---|---|
| `SupervisorRuns.EveryRunSafe` | init/job.c:388-657 | no sequence of inputs fails an assertion, overwrites a live pid, reaches an impossible branch or touches freed memory, and every state reached keeps the whole invariant |
| `SupervisorRuns.StepSafe` | init/event.c:227-520 | from any safe state any single input succeeds, leaves a safe state, and moves events only forward |
| `SupervisorRuns.EventsGoForward` | init/event.c:227-269 | between any two points of a run every event keeps its name and variables, goes only from pending to handling to finished, and a freed event stays freed |
| `Guarantees.BlockersAreCounted` | init/event.c:184-207 | in every reachable state an event's blocker count is the number of condition leaves that hold it plus the entries of all jobs' blocking lists that name it |
| `Guarantees.FreedEventsAreForgotten` | init/event.c:455-520 | a freed event is held by no condition, named by no blocking list, awaited by no job and not on the list |
| `Guarantees.BlockedExactlyWhenStartingOrStopping` | init/job.c:1106-1147 | a job has a blocker exactly when it is starting or stopping; that event lists the job once and no other event lists it |
| `Guarantees.ProcessesAndGoalsAgree` | init/job_process.c:1640-1929 | live pids, kill timer and goal agree with the state of every job at rest, no job rests in a spawning state, respawn is a goal only in post-start and pre-stop, and running implies the goal start |
| `Guarantees.RegistryIsSafe` | init/job_class.c:426-499 | at most one class a name is registered, and it is that of the first file with the name unless it has instances; a name with a file has a registered class; every class with instances is registered; no freed class is registered, has instances or belongs to a file |
| `Guarantees.EventsHappenOnce` | init/event.c:455-520 | an event is taken up by event_pending once, freed at most once, wakes a job at most once, and has at most one `/failed` successor, which has none |
| `Guarantees.EventsAreInOrder` | init/event.c:123-181 | the list has exactly the events that are not freed, in the order in which they were emitted |
| `Guarantees.PollLeavesOnlyHeldEvents` | init/event.c:227-269 | when polling returns, every listed event is being handled, has a positive blocker count and somebody holds it |
| `Guarantees.StartsAreJustified` | init/job_class.c:2600-2675 | in any reachable state, if an event makes a start condition true then the gathered events are alive, satisfy its formula, and alone would have made it true |
| `Guarantees.ReloadsLoseNothing` | init/conf.c:1068-1246 | in any reachable state, reloading a registered class without instances and with an unchanged start condition registers the new class with exactly the satisfied leaves of the old one, and the same reaction to any next event |
| `Shortfalls.AwaitedProcessMissing` | init/job.c:2601-2644 | in a state that waits for a process the process is missing exactly when the job failed in the security state |
| `Shortfalls.SecuritySetupParks` | init/job.c:2601-2644 | whenever a security process cannot be set up, its job is left in the security state without a process |
| `Shortfalls.ParkedForever` | init/job.c:2601-2644 | no later inputs, commands included, get such a job out of the security state |
| `Shortfalls.SecurityJobLost` | init/job.c:2610-2613 | a concrete run in which that happens |
| `Shortfalls.RunningWithoutMain` | init/job.c:678-850 | at the end of any run a job whose class has a main process runs without it if and only if at some input a post-start or pre-stop script of it ended while its goal was start and the process was gone, and it has run ever since |
| `Shortfalls.HollowExactly` | init/job.c:2601-2644 | after any step from a safe state a job runs without its main process if and only if such a script has just ended, or failed to be set up, under that condition, or it did before and still runs |
| `Shortfalls.StartedTooEarly` | init/job.c:1358-1410 | starting a stopping job whose main process is gone, before its script ends, makes it run without one |
| `Shortfalls.JobRunsWithoutMain` | init/job.c:1358-1410 | a concrete run in which that happens |
| `Shortfalls.EventMissed` | init/event.c:413-414 | a concrete run of two classes on one event in which the second never sees it, although its condition would become true and its instance has a name |
| `Witness.SecurityReached` | init/job.c:453-471 | a run of three inputs ends with a security process that is not yet set up |
| `Witness.MainLost` | init/job_process.c:1640-1929 | a run of six inputs ends in post-start with the main process dead and the goal stop |
| `JobMachine.EnterMoves` | init/job.c:403-655 | entering any state from a legal predecessor fails no assertion, and ends at rest or legally before the next state |
| `JobMachine.SettleSettles` | init/job.c:393-656 | the loop ends with the job freed, blocked on its event, running, or in a state whose process it started or signalled |
| `JobMachine.SettleDestination` | init/job.c:393-656 | the state the loop ends in is the first one on the way whose process the class has, and exactly that process was started |
| `JobMachine.SettleEffect` | init/job.c:393-656 | the loop has the outside effect of the state it rests in and of no other |
| `JobReactions.DeathVerdict` | init/job_process.c:1681-1843 | no assertion of the switch over processes fails for a job at rest; a security, pre-start or post-stop script fails and stops the job exactly when its status is not zero, a post-start or pre-stop script never does |
| `JobReactions.MainDiesQuietly` | init/job_process.c:1682-1723 | a main process that dies while a script or the stopping event holds the job leaves it at rest |
| `Transitions.ChangeStateKeeps` | init/job.c:388-657 | a state change keeps the invariant of the whole system, touches no other job, and rests where the class says, with the processes it says |
| `Transitions.ChangeStateAnnounces` | init/job.c:1106-1147 | a state change emits exactly the event of the state it rests in, which lists the job when it starts or stops; a service that runs blocks nothing any more, a one-off job keeps what it blocks |
| `Transitions.GoalKeeps` | init/job.c:320-366 | a goal change keeps the invariant and never frees the job (what the job becomes: `Arrival.GoalExactly`) |
| `Arrival.AdvanceArrives` | init/job.c:388-850 | from every state a job rests in and with either goal, `job_change_state (job, job_next_state (job))` brings it to the place read off state, goal, class and live processes: there it has just the processes, timer, environments, blocker and blocked events of that place, and exactly the event of that place is new |
| `Arrival.GoalExactly` | init/job.c:320-366 | a goal change does that to a waiting job that is to start and to a running job that is to stop, and to any other job nothing but set its goal |
| `Transitions.PerformKeeps` | init/job.c:427-655 | emitting, waiting, finishing and freeing keep the invariant |
| `Transitions.FailTouches` | init/job.c:871-892 | a failure is recorded once; the events the job blocks, and no others, are marked as failed and given back by its entries |
| `Ledger.JobFinishedBalanced` | init/job.c:907-1000 | exactly the job's entries are given back and, on failure, exactly its events are marked |
| `Ledger.UnblockAllOk` | init/event_operator.c:205-215 | giving back what is held never finds a count of zero and lowers each count by its number of entries |
| `Ledger.BlockAllOk` | init/event_operator.c:650-679 | blocking a list raises each count by its number of entries |
| `Invariant.RetireKeeps` | init/job.c:611-655 | the end of an instance keeps the invariant and an up-to-date registry; its class loses just that instance, and is freed if and only if it was deleted and this was the last |
| `Invariant.ReconsiderKeeps` | init/job_class.c:472-499 | reconsidering keeps the registry, concerns one name, brings that up to date, and reports a class as gone exactly when it is not, or should not be, registered |
| `Invariant.FreeClassKeeps` | init/event_operator.c:205-215 | a class neither registered nor in a file is freed with all its references given back |
| `ProcessSteps.TerminatedKeeps` | init/job_process.c:1640-1929 | the death of any live process keeps the invariant, touches only its job, and says when the job runs afterwards |
| `ProcessEnds.ScriptEndsExactly` | init/job_process.c:1781-1928 | the end of a script fails and stops the job exactly if the script is security, pre-start or post-stop and its status is not zero; the job, so marked or as it was, then goes where its class leads |
| `ProcessEnds.MainEndsExactly` | init/job_process.c:1682-1779 | the end of a main process leaves a job alone that is stopping or not to run; any other is stopped, blamed for a bad exit that is not respawned, blamed and stopped as a runaway, or respawned, now or when its script ends; each case gives the whole job and the events that fail |
| `ProcessEnds.BlamedExactly` | init/job_process.c:1716-1757 | a job whose main process dies unexpectedly is marked as failed exactly when the status is not a normal one and it is not respawned, and is to stop exactly when it is not respawned; spelled out on goal, state, status, normal exits, respawn and task |
| `ProcessSteps.ReapedStops` | init/job_process.c:1921-1928 | when the main process of a running job dies and the job is to stop, the second state change does nothing: the job has moved once, to stopping |
| `ProcessSteps.ReplacedByStopping` | init/job_process.c:1759-1774 | a main process that dies before it is up and is to be replaced is reaped with the job already in stopping, where it is blocked, and the job stays there |
| `ProcessSteps.ChildErrorKeeps` | init/job.c:2601-2644 | a setup failure keeps the invariant: after a post-start or pre-stop script the job goes on as it is, after any other process it is blamed and is to stop, and goes on unless it was the security process |
| `ProcessSteps.ChildReadyKeeps` | init/job_process.c:2581-2645 | a finished setup keeps the invariant; the job goes on exactly if it is the main process of a class that expects nothing more, and else only the setup is over |
| `ProcessSteps.KillTimerKeeps` | init/job_process.c:1435-1466 | a timer only fires for a main process that is there, and nothing but the timer changes |
| `CommandOutcomes.StartExactly` | init/job.c:1358-1410 | a job that is to start already is left alone; any other is to start with the given environment and blocks nothing any more, and begins exactly if it was waiting |
| `CommandSteps.StartedWith` | init/job.c:422-452 | a waiting job that is started announces it, waits for that event, and has the environment it was given and nothing of an earlier life |
| `CommandSteps.InstanceEnvironment` | init/job_class.c:741-774 | a variable of a new instance comes from the last mention in the command, else in the class, else in init's own table |
| `CommandOutcomes.StopExactly` | init/job.c:1435-1474 | a job that is to stop already is left alone; any other is to stop and blocks nothing any more; if it was running it now rests in pre-stop with that script started, if its class has one and its main process is alive, and else in stopping, waiting for its event; otherwise nothing else changes |
| `CommandOutcomes.RestartExactly` | init/job.c:1500-1544 | a job that is to stop is left alone; any other forgets its environments and what it blocks and is to start; if it was running it has left for pre-stop or stopping |
| `CommandSteps.FindOrCreateKeeps` | init/job.c:143-263 | the instance with the name is found, or a new one, at rest and holding nothing, joins its class's table; nothing else changes and the invariant is kept |
| `CommandOutcomes.StartFromClassExactly` | init/job_class.c:994-1106 | the instance named by the expanded name, and no other job, is concerned: if there was none it is new, starting and waiting for its event, else it is to start unless it was already; its environment has each variable from the command, else the class, else init's table; nothing happens if the name cannot be expanded |
| `OfferSteps.HandleStopKeeps` | init/event_operator.c:390-430 | the event's count rises by exactly the leaves of the stop condition that take it |
| `OfferSteps.BlockGatheredKeeps` | init/event_operator.c:650-679 | a job blocks live events only, and each count rises with its entry |
| `OfferSteps.ResetStartKeeps` | init/event_operator.c:691-716 | a reset gives back exactly what the leaves held and forgets it |
| `ConditionOutcomes.StopByConditionExactly` | init/event.c:330-365 | a job whose stop condition came true blocks the gathered events, in place of what it blocked if it was not to stop before; then it also is to stop, with the collected environment, and leaves running if it ran; its condition starts afresh |
| `OfferSteps.InductKeeps` | init/job_class.c:2600-2675 | induction keeps the invariant and leaves the start condition reset, whether or not the instance name expands (what becomes of the instance: the next two rows and `Reach.OfferAllReaches`) |
| `ConditionOutcomes.StartByConditionExactly` | init/job_class.c:2643-2670 | an instance that was not to start is to start with the collected environment and blocks the gathered events in place of what it blocked, and begins if it was waiting; one that was to start blocks them as well unless it is a service that runs |
| `CommandOutcomes.EventsSupply` | init/event_operator.c:489-554 | the collected table gives each variable the value of its last writer among the gathered events, else what the layers below say, gives the list variable the names of those events in order, and has no key twice |
| `Reach.OfferAllReaches` | init/event.c:303-442 | the event is offered to the start condition and all instances' stop conditions of every class up to and including the first whose instance cannot be named, and all of it can be told from the state before: which condition comes true and starts afresh, which job is told to stop or to start, each job's whole record afterwards, and each variable of the environments it gets; all other classes and jobs are untouched |
| `Reach.EventPendingReaches` | init/event.c:284-293 | the same of a pending event in any state that keeps the invariant, and so at every turn of a poll |
| `Reach.ReachesAllExactly` | init/event.c:413-414 | the event reaches every registered class if and only if all classes after the first that fails would be left as they are, in particular if none but the last fails |
| `EventSteps.WakeAllKeeps` | init/event.c:462-475 | each job on the blocking list goes on once, in order, to where its state, goal and class lead; no other job changes, nothing joins the list and no event fails |
| `EventSteps.EventFinishedKeeps` | init/event.c:455-520 | the event is freed with no reference left, and its history ends with the jobs it woke, its successor if it failed and is not itself such news, and its end |
| `EventSteps.PollKeeps` | init/event.c:227-269 | polling keeps the invariant for any number of turns, never moves a job that waits for a process, and if it ends all listed events are held |
| `EventOrder.EventsTakenInTurn` | init/event.c:227-269 | in every run, however polls are cut short and commands come in between, once an event has been taken up so have all that were emitted before it |
| `EventOrder.PollInTurn` | init/event.c:227-269 | the same of a poll from any place of its loop before which the list has been swept |
| `EventSteps.SuccessorsEnd` | init/event.c:499-516 | the news of a failure is never succeeded by news of its own failure |
| `EventSteps.FailureNames` | init/event.c:499-516 | the names that tell of a failure are exactly those that end in `/failed` |
| `Failures.StepMarks` | init/job.c:871-1000 | any input to any safe state marks exactly those events as failed that a job blocks when that input makes it fail, and only the end or failed setup of a process can |
| `Failures.FailedExactly` | init/job.c:871-1000 | in any run an event is marked as failed if and only if at some input a job failed that blocked it then |
| `Registry.ConsiderAppoints` | init/job_class.c:426-456 | considering a class keeps the invariant, gives its name to the best file unless the class that has it has instances, and concerns no other name |
| `Registry.ReconsiderAppoints` | init/job_class.c:472-499 | a registered class keeps its name if it has instances and leaves it to the best file if not |
| `Registry.NamedFirst` | init/conf.c:1310-1334 | the class selected for a name is the first of the list that has it, and there is none exactly if no class of the list has it |
| `Registry.LoadFileAppoints` | init/conf.c:1068-1246 | after a new file every name belongs to the class that had it, if that has instances, and else to the best file there is now; the invariant is kept |
| `Registry.ReloadFileAppoints` | init/conf.c:1068-1246 | the same after a reload, jobs and events unchanged |
| `Registry.RemoveFileAppoints` | init/conf.c:1131-1147 | the same after the loss of a file, jobs and events unchanged |
| `ConfigSteps.TransferBlocksKeeps` | init/job_class.c:519-572 | the new condition ends as if its leaves had been offered the old one's events in order, every new match is counted, nothing else changes |
| `ConfigSteps.LoadFileKeeps` | init/conf.c:1068-1246 | a new file adds one class, alive, with the given configuration and no instances, and one file; jobs, the other classes' configurations and instances, and events but for their counts are as before, and the invariant is kept |
| `ConfigSteps.ConsiderWhileInUse` | init/job_class.c:426-456 | a class with instances keeps its name when files are considered; the start condition of the best file then gives back what it holds, and no other class changes |
| `ConfigSteps.DestroyKeeps` | init/conf.c:1263-1297 | a class whose file is gone is freed exactly when it is not registered any more, and is marked as deleted if it stays; no other class changes |
| `StartProgress.PollTrusty` | init/event_operator.c:390-430 | through any polling every leaf of every start condition holds an event that matches it, and every held event was offered to all leaves |
| `StartProgress.ReloadLosesNothing` | init/job_class.c:519-572 | the reload theorem from any state whose start conditions are trustworthy |
| `StartProgress.ReplacedIsBest` | init/conf.c:1310-1334 | a file that is best for a name stays so when replaced at its place |
| `Daemon.Init.FinishJob` | init/job.c:907-1000 | the loop over the blocking list computes job_finished |
| `Daemon.Init.MoveJob` | init/job.c:388-657 | the loop over states computes the resting state and its effect |
| `Daemon.Init.OfferEvent` | init/event.c:303-442 | the nested loops over classes and instances compute the offer |
| `Daemon.Init.WakeJobs` | init/event.c:462-475 | the loop over the jobs that wait wakes them as the recursive function does |
| `Daemon.Init.FindInstance` | init/job_class.c:2636-2639 | the loop over the instances finds the one with the name, or a new one is made |
| `Daemon.Init.PollEvents` | init/event.c:227-269 | the loop over the list computes the poll and reports whether it ended |
| `Daemon.Init.FindNamed` | init/conf.c:1310-1334 | the first class of the list with the name |
| `Daemon.Init.HandOver` | init/job_class.c:519-572 | the nested loops compute the hand-over of events |
| `Daemon.Init.Serve` | init/event.c:227-269 | any input in a safe state is served as the step function says, and the state is safe again |
| `Daemon.Init.ServeAll` | init/event.c:227-269 | a whole sequence of inputs ends in the state of the run, which is safe |
| `Condition.HistoryMeaning` | init/event_operator.c:390-430 | after any sequence of events the root has the value of the formula in which a leaf is true if some event matched it, and each true leaf holds the first event that did |
| `Condition.ResetForgets` | init/event_operator.c:691-716 | after a reset every node is false and nothing is held |
| `Condition.HandleKeeps` | init/event_operator.c:390-430 | offering an event adds exactly one hold for each leaf that takes it and no other |
| `Condition.GatheredSatisfies` | init/event_operator.c:444-451 | the events found by the traversal that skips false nodes satisfy the formula |
| `Condition.GatheredSuffices` | init/event_operator.c:650-679 | those events alone would have made the condition true |
| `Condition.TransferLosesNothing` | init/job_class.c:519-572 | a fresh copy that is handed the held events has the same true leaves and the same value after any next event |
| `Condition.TransferClosed` | init/job_class.c:519-572 | after a hand-over every held event has been offered to all leaves |
| `Condition.SameLeavesSameFuture` | init/event_operator.c:228-249 | trees of one shape with the same true leaves react alike |
| `OperatorTree.Tree.Handle` | init/event_operator.c:390-430 | the post-order loop over nodes leaves the tree of Handle, reports whether a leaf took the event and raises its count by the number of leaves |
| `OperatorTree.Tree.Reset` | init/event_operator.c:691-716 | the loop leaves the reset tree and lowers every count by what was held |
| `ConditionEnviron.CollectedMeaning` | init/event_operator.c:489-554 | every variable has the value its last writer among the gathered events gave it, and the list variable names those events in order |
| `ConditionEnviron.Collect` | init/event_operator.c:489-554 | the traversal fills the table with that environment |
| `ConditionText.ParseExactly` | init/parse_job.c:556-656 | the parser returns a tree for exactly the token sequences of the grammar, and it is the left-associative, equal-precedence tree |
| `ConditionText.ParseComplete` | init/parse_job.c:556-656 | every sentence of the grammar parses to its tree |
| `ConditionText.ParseSound` | init/parse_job.c:1030-1077 | whatever parses is a sentence of the grammar with that tree |
| `ConditionText.StepShaped` | init/parse_job.c:721-1008 | each token keeps the shape of the stack: between markers at most one operator followed by one match, and the depth counts the markers |
| `ConditionText.RunShaped` | init/parse_job.c:556-656 | the same over whole inputs |
| `ConditionParser.ParseOn` | init/parse_job.c:556-656 | the parser with a mutable stack computes that parse |
| `ConditionPrint.PrintParse` | init/event_operator.c:743-866 | parsing the printed text gives the tree back exactly when its names are not operators and its positional arguments come first |
| `ConditionPrint.Collapse` | init/event_operator.c:743-866 | the stack printer prints the fully bracketed text |
| `ConditionStore.StoreLoad` | init/event_operator.c:975-1171 | stored under one event list and rebuilt under another, a tree keeps everything but its events' identities |
| `ConditionStore.StoreLoadIdentity` | init/event_operator.c:975-1171 | under the same list the tree is rebuilt exactly |
| `ConditionStore.LoadStore` | init/event_operator.c:1014-1171 | records that can be rebuilt are stored again as they were if and only if none has an empty argument list |
| `ConditionStore.StoreAllSucceeds` | init/event_operator.c:918-962 | a tree can be stored exactly when all events it holds are listed |
| `ConditionStore.MovedHolds` | init/event.c:786-837 | the number of holds on each event is unchanged, so blocker counts stay right |
| `ConditionStore.Serialise` | init/event_operator.c:975-1002 | the post-order loop writes those records |
| `ConditionStore.Deserialise` | init/event_operator.c:1089-1171 | the stack loop rebuilds that tree or fails as specified |
| `ConditionStore.EventToIndex` | init/event.c:786-809 | the position of the event in the list, if it is there |
| `ConditionStore.EventFromIndex` | init/event.c:821-837 | the event at the position, if there is one |
| `Environ.AddedGet` | init/environ.c:81-155 | what a lookup finds after an addition, for every key |
| `Environ.AddedWellFormed` | init/environ.c:81-155 | no key is ever there twice |
| `Environ.AppendedLastWriterWins` | init/environ.c:257-272 | after appending a table every key has the value of its last mention |
| `Environ.Table.Add` | init/environ.c:81-155 | replacing, keeping, dropping and appending in place compute the addition |
| `Environ.Table.Append` | init/environ.c:257-272 | the loop computes the appended table |
| `Environ.Table.Lookup` | init/environ.c:349-362 | the loop finds the first entry with the key |
| `Expansion.SpellRead` | init/environ.c:537-765 | reading loses nothing: a string is the spelling of what is read from it and the unread rest |
| `Expansion.ReadSpell` | init/environ.c:537-765 | every word in normal form is what is read from its spelling |
| `Expansion.ReadFits` | init/environ.c:537-765 | whatever is read is in that normal form |
| `Expansion.ExpandEscaped` | init/environ.c:485-507 | every string has a spelling that expands to itself |
| `Expansion.ParameterTable` | init/environ.c:668-719 | the table of `-`, `:-`, `+` and `:+` against set, empty and unset names |
| `Expansion.BracedLiteral` | init/environ.c:602-719 | a braced reference with a plain argument means what its operator chooses |
| `Expansion.ExpandNested` | init/environ.c:602-719 | a bracketed reference is replaced by what its operator chooses, its key and its argument being expanded as strings of their own whatever they contain, and the rest of the string is expanded behind it; the first error in that order is the result |
| `Expansion.ExpandName` | init/environ.c:555-585 | `$NAME` takes the longest name and stands for its value, an unknown name is an error, and the rest is expanded behind it |
| `Expansion.FailingWordHasNoMeaning` | init/environ.c:635-662 | a word with a bad reference fails however it is nested |
| `ExpansionBuffer.EnvironExpand` | init/environ.c:485-507 | the in-place rewriting of the buffer yields exactly the meaning of the string, or its error |
| `ExpansionBuffer.Buffer.ExpandUntil` | init/environ.c:537-765 | position, length and buffer agree with what is read and what is left, and the text before and after is untouched |
| `ExpansionBuffer.Buffer.Substitute` | init/environ.c:721-757 | a reference is replaced by its value, the rest of the buffer moves without loss, and the position is behind the value |
| `JobLog.OutputPreserved` | init/log.c:313-711 | in any run what is written, unflushed and received is the job's output, in order, without the discarded stretches, which are disjoint and each end with a read; nothing is discarded without ENOSPC |
| `JobLog.ArrivalDiscards` | init/log.c:313-353 | a delivery discards the whole receive buffer, as it is then, or nothing |
| `JobLog.DiscardsWholeReads` | init/log.c:600-603 | what is discarded with a read is exactly that read if and only if the receive buffer was empty before, and whole reads if and only if the buffer was empty or began with the first byte of a read |
| `JobLog.HalfReadLost` | init/log.c:600-603 | a run in which one read is half written and half lost |
| `JobLog.TwoReadsLost` | init/log.c:600-603 | a run in which whole reads are lost although the buffer was not empty |
| `JobLog.WriteAccepts` | init/log.c:517-608 | after a write the file has grown by exactly what the calls took, from the front of the unflushed and then the new data, told from their answers; what they left is the receive buffer if all went well, and else the unflushed data, with the file closed |
| `JobLog.RunWritten` | init/log.c:313-711 | over every run the file holds exactly what the calls of write took, one after the other |
| `JobLog.PromptlyWritten` | init/log.c:313-711 | if the file can always be opened and every call takes all it is offered, then after every step the file holds everything read from the job |
| `JobLog.WriteKeepsStream` | init/log.c:516-608 | nothing is reordered, duplicated or lost by a write unless the disk is full, and then exactly the new chunk |
| `JobLog.ReaderKeepsStream` | init/log.c:313-353 | the same for the reader, and what is written is never taken back |
| `JobLog.StepFaithful` | init/log.c:622-711 | every step keeps the output faithful |
| `JobLog.Log.FileWrite` | init/log.c:517-608 | the file grows by exactly what the calls took and the buffers keep the rest in order, or all but the new chunk when the disk is full; the answer says whether all went well |
| `JobLog.Log.IoReader` | init/log.c:313-353 | the same for the reader, the file being opened first |
| `JobLog.Log.ReadWatch` | init/log.c:622-711 | the loop over reads computes them in order and keeps the output faithful |
| `JobLog.Log.Flush` | init/log.c:211-276 | the flush keeps the output faithful, whatever fails |
| `Respawn.RespawnBound` | init/job_process.c:1943-1969 | any span of D seconds has at most limit times (D / interval + 2) respawns, and less than an interval at most twice the limit |
| `Respawn.BoundReached` | init/job_process.c:1943-1969 | twice the limit within one second is reached |
| `Respawn.SlowNeverRefused` | init/job_process.c:1943-1969 | an instance that never asks limit + 1 times in a row within less than the interval is never refused |
| `Respawn.RefusedExactly` | init/job_process.c:1943-1969 | a question is refused if and only if it falls into the open window and at least limit earlier ones did |
| `RespawnRuns.RespawnsAreBounded` | init/job_process.c:1943-1969 | in any run with a clock that does not go back, any span of D seconds sees at most limit times (D / interval + 2) respawns of an instance, and less than an interval at most twice the limit |
| `RespawnRuns.RunsAsk` | init/job_process.c:1724-1773 | in any run the window of a job is what the questions put to the limiter have made of it, and what was respawned is what was granted |
| `RespawnRuns.StepWindow` | init/job_process.c:1724-1773 | only the death of a main process that asks the limiter changes the window of a job, whatever else happens |

## Left out

- D-Bus methods, replies and signals, and the waiting messages that job_finished answers.
- fork, exec, ptrace, terminals, limits and user ids: only their effect on pids and states is modelled; `expect` appears as the input that the main process is ready.
- cgroups, quiesce, user sessions, override files and the state file other than conditions.
- The tokeniser, fnmatch and the expansion of patterns before matching: conditions work on tokens and on a match relation that is a parameter.
- The variables a job's own events carry (init/job.c:1014-1090): a parameter.
- environ_remove, whose comparison at init/environ.c:204 uses the key length of the entry.
- event_operator_copy: a new job gets a fresh copy of its class's stop condition, which never holds events, so the blocking of copied events does not arise.
- Liveness: event_poll need not end when events keep emitting events; `SupervisorSteps.Poll` and `Daemon.Init.PollEvents` run for any given number of turns, and the theorems hold for all of them.
- Heap objects are records in sequences, freed objects stay behind as dead records; addresses and aliasing are not modelled.
- Hash tables are sequences; the inputs `ClassesReordered` and `InstancesReordered` let them be walked in any order.
- The order inside the end of an instance: the job is freed before its class is reconsidered, the program reconsiders first with the job already out of the table (init/job.c:625-652); the outcome is the same.
- Operator records with a name, arguments or an event, which the program never writes, are refused by the model's loader.
- The branch of job_process_terminated for a job in a spawning state (init/job_process.c:1652-1679), and with it the flag `state_only`: modelled as a trap and proved never to be reached.
- ExpansionBuffer.EnvironExpand: strings and tables contain no NUL characters, as C strings cannot.

# A verified model of the ndmspc task dispatcher and binning algebra

ndmspc processes every point of an N-dimensional box. This project models, in Dafny, the parts of it in
which many pieces of state have to agree, and proves that they do.

**Dispatching.** A supervisor numbers the points of a box with an odometer (`Odometer`), keeps their life
cycle in a task manager (`TaskState`) and sends them to worker processes as single tasks or batches, whose
texts are modelled in `Wire`. `Supervisor` is the dispatcher of one definition as a step machine on values,
for arbitrary messages, failures and send outcomes; `SupervisorInvariant`, `SupervisorSteps`,
`SupervisorDispatch`, `SupervisorRuns` and `SupervisorProgress` prove what its steps and runs keep, and
`Completion` which events end a run and which runs can still end in success. `RoundRobin` says which worker
a message goes to, over whole runs, and `BatchShares` which tasks and how many it carries. `MainLoop` is one
turn of the main loop as a function of what the sockets, the clock and the workers do in it;
`MainLoopTheorems` says what each message does and that a loop whose messages are answered comes to its end.
`Dispatcher` is the same dispatcher as an object whose methods update counters, maps and lists in place; each
method is proved to compute its step, and the main loop to end as the turns of `MainLoop` do, which are a run
of the step machine that returns the volume of the box or an error.

**Supervisor, channels and workers together.** `Flight` accounts for the messages in flight, `Workers` is
one worker process with its two FIFO channels and its queue of deferred frames, `WorkerLoop` is its task
loop as an object, and `Cluster` puts them together over any number of definitions, with crashes, signals,
exceptions, time-outs, lost sends and late workers. `ClusterTheorems` states what holds in every reachable
state, `ClusterProgress` from which states a definition can be completed, and `ClusterCounterexamples` builds
the sessions in which late workers are left out or run under another definition. A worker process may come back
under an identity that is not registered; its old channel is then gone. Workers identify themselves by the
identity built from their index, so no two share an index.

**Thread pool.** `ThreadPool` is the in-process variant: a main thread that enqueues, waits and joins, and
workers that run tasks and drain the queue on an exception. A wait on a condition variable is a step that
is possible once its condition holds.

**Binning.** `AxisPartition` has the two loops that cut an axis into intervals of base bins and the
encoding of an interval in three numbers, `WidthLists` what the entries of a definition mean for the
intervals, `PointPacking` the flat coordinates of a combination of
intervals, `StorageIndex` the storage cells and the list of ids that has to agree with them,
`DefinitionFill` the adding and filling of a definition, and `Reshape` the permutation of a sparse histogram's axes.
Axis edges are strictly increasing reals; width lists have positive widths and non-negative counts.

## What the code does not do

Properties one might expect that fail, each with the exact condition or the family of inputs:

- A TCP message that the socket does not take puts its tasks back but never lowers the outstanding counter,
  although the comments in the loop promise that work is re-dispatched. While a worker is left, a run can
  still end in success exactly if no task was in such a message (`Completion.CompletesIff` for the
  dispatcher, `ClusterProgress.SessionCompletesIff` for the whole session); `Completion.OneFailedSend` is the
  run with one such message.
- The dispatch loop spins exactly at the task limit (`Completion.SpinsIff`, `SupervisorProgress.DispatchSpins`).
  Without failed sends it never gets there (`ClusterTheorems.DispatchMovesOn`); failed sends alone bring it
  there whenever there are more than four workers for each task of a batch (`Completion.SpinIsReached`).
- The outcome of the catch-up sends to a late worker is ignored. It runs under the order exactly if what it
  held and the messages that went out make it so (`ClusterTheorems.LateWorkerIsTold`); otherwise it runs
  tasks of the box under another definition or other ids (`ClusterCounterexamples.UntoldRunsElsewhere`).
- A definition that a worker's binning does not have leaves its current one in place, and the worker runs the
  tasks under that (`ClusterTheorems.FirstWorkersAreTold`).
- The answer to an INIT registers the worker exactly if the INIT was sent in the same definition
  (`ClusterCounterexamples.InitedRegistersIff`), because the table of pending joins is local to a definition.
  Otherwise the worker lives and waits, and stays outside until it is started again
  (`ClusterCounterexamples.ForgottenStays`, with the sessions of `ClusterCounterexamples.MissedJoin`).
- Filling a definition stores the ids themselves, refreshing stores them one higher; ids collected from a
  content that was filled and not refreshed are never those of the definition
  (`DefinitionFill.CollectAfterFillDiffers`).
- Refreshing loses an id exactly if two ids share a storage cell (`StorageIndex.NothingLostIff`), and two
  points share their content coordinates exactly if a user axis has more than one entry
  (`PointPacking.DistinctIffOneUserEntry`).
- A list of starts may begin below bin 1; that interval does not decode (`AxisPartition.RecoveredIff`).
- Reshaping with an empty new point carries no bin over, so a pure permutation of axes loses its content
  (`Reshape.ReshapeSparseAxes`).
- A batch text with a task without coordinates is rejected by its parser (`Wire.BatchRoundTrip`).

## Model

| member | source | states |
|---|---|---|
| `TaskState.RunsKeepInv` | core/NTaskStateManager.cxx:6-153 | after any sequence of manager operations the queue has no repeated id and agrees with the pending set, the three states are disjoint and together are the stored payload keys, payloads agree everywhere, and the two owner maps are inverse with no empty set |
| `TaskState.TotalChange` | core/NTaskStateManager.h:139 | the number of tracked tasks changes only when a new task is added or everything is cleared |
| `TaskState.OwnersCoverRunning` | core/NTaskStateManager.cxx:206-223 | in a run that never removes a single assignment every running task has an owner |
| `TaskState.ClaimThenFail` | core/NTaskStateManager.cxx:45-113 | claiming and failing a task moves it to the back of the queue and changes nothing else |
| `TaskState.RequeueEffect` | core/NTaskStateManager.cxx:115-153 | requeueing takes a task out of running, done and ownership and appends it to the queue with its stored payload; a task that is neither running nor done is left alone |
| `TaskState.TaskStateManager.AddPending` | core/NTaskStateManager.cxx:6-13 | adds exactly an unknown id; a known one is refused and nothing changes |
| `TaskState.TaskStateManager.AssignToWorker` | core/NTaskStateManager.cxx:15-43 | the loop that rebuilds the queue removes exactly the named task, keeps the order of the rest and starts the task on the worker |
| `TaskState.TaskStateManager.ClaimNextPendingForWorker` | core/NTaskStateManager.cxx:45-62 | the first queued task starts on the worker; an empty queue changes nothing |
| `TaskState.TaskStateManager.MarkDone` | core/NTaskStateManager.cxx:64-87 | exactly a running task becomes done and loses its owner |
| `TaskState.TaskStateManager.MarkFailed` | core/NTaskStateManager.cxx:89-113 | exactly a running task goes back to the queue and loses its owner |
| `TaskState.TaskStateManager.RequeueTask` | core/NTaskStateManager.cxx:115-153 | a running or finished task goes back to the queue |
| `TaskState.TaskStateManager.GetWorkerTasks` | core/NTaskStateManager.cxx:155-162 | returns exactly the tasks owned by the worker |
| `TaskState.TaskStateManager.RecoverWorkerTasks` | core/NTaskStateManager.cxx:179-204 | all tasks of a worker go back to the queue in increasing id order and are returned with their payloads |
| `TaskState.TaskStateManager.RemoveTaskFromWorker` | core/NTaskStateManager.cxx:206-223 | an assignment is removed exactly if the worker owns the task |
| `TaskState.TaskStateManager.IsDone` | core/NTaskStateManager.cxx:234-237 | a task is done exactly if it is stored and neither pending nor running |
| `TaskState.TaskStateManager.TotalCount` | core/NTaskStateManager.h:130-139 | the sum of the three counts is the number of stored payloads |
| `Odometer.NDimensionalExecutor.SetBounds` | core/NDimensionalExecutor.cxx:170-193 | accepts exactly non-empty bounds of equal length with min at most max; the bounds stay changed after an error |
| `Odometer.NDimensionalExecutor.Increment` | core/NDimensionalExecutor.cxx:130-140 | moves to the point with the next number; from the last point it wraps to the minimum and returns false |
| `Odometer.NDimensionalExecutor.Execute` | core/NDimensionalExecutor.cxx:227-240 | calls the function on all points of the box in order and ends at the minimum |
| `Odometer.CarryIsSuccessor` | core/NDimensionalExecutor.cxx:130-140 | raising one dimension and resetting those behind it is the successor in the mixed-radix numbering |
| `Odometer.PointsAreLexOrdered` | core/NDimensionalExecutor.cxx:130-140 | the numbering is the lexicographic order |
| `Odometer.PointsCoverBox` | core/NDimensionalExecutor.cxx:227-240 | every point of the box is listed exactly once and nothing else |
| `Odometer.RankOfPoint` | core/NDimensionalExecutor.cxx:130-140 | numbering and point are inverse on all numbers below the volume |
| `Odometer.PointOfRank` | core/NDimensionalExecutor.cxx:130-140 | numbering and point are inverse on all points of the box |
| `Wire.Getline` | core/NDimensionalIpcRunner.cxx:44-45 | reading tokens one by one at a position is splitting the string at the separator |
| `Wire.ParseTaskBatchPayload` | core/NDimensionalIpcRunner.cxx:39-62 | the token loop computes the parse of a batch payload, including the rejected and the throwing inputs |
| `Wire.TaskIs` | core/NDimensionalIpcRunner.cxx:44-58 | a task token is an id and coordinates around its first colon; it is refused exactly if one of them is empty, and throws if the coordinates do |
| `Wire.BatchIs` | core/NDimensionalIpcRunner.cxx:39-62 | a batch is accepted exactly if it has a task and every token that is not empty is read; it throws exactly if the first one that is not read does |
| `Wire.ParseCoords` | core/NDimensionalIpcRunner.cxx:567-577 | the token loop converts every non-empty token, or throws |
| `Wire.ParseIds` | core/NDimensionalIpcRunner.cxx:579-589 | the same for ids of 64 bits |
| `Wire.NumbersAre` | core/NDimensionalIpcRunner.cxx:567-589 | a list of numbers is read exactly if every token that is not empty converts, one number for each, in order |
| `Wire.PrintBatch` | core/NDimensionalExecutor.cxx:1343-1348 | the stream loop prints tasks separated by semicolons |
| `Wire.CoordsRoundTrip` | core/NDimensionalIpcRunner.cxx:102-110 | printed coordinates of int range, negative ones too, parse back to themselves |
| `Wire.IdsRoundTrip` | core/NDimensionalIpcRunner.cxx:112-120 | printed id lists parse back to themselves |
| `Wire.BatchRoundTrip` | core/NDimensionalIpcRunner.cxx:39-62 | a printed non-empty batch parses back to the same ids and coordinates exactly if no task has empty coordinates |
| `Wire.AckRoundTrip` | core/NDimensionalExecutor.cxx:1729-1740 | the ids of an ACKB payload are those of the tasks it acknowledges, in order |
| `Wire.IdentityRoundTrip` | core/NDimensionalIpcRunner.cxx:95-100 | the index is recovered from a padded worker identity, so identities of different indices differ |
| `SupervisorInvariant.NothingLeftToRecover` | core/NDimensionalExecutor.cxx:859-867 | after the history of a failed worker has been replayed, the fallback by owner finds nothing |
| `SupervisorInvariant.FailWorkerIs` | core/NDimensionalExecutor.cxx:820-923 | what a worker failure does to every field; the clamped subtractions from the outstanding and the acknowledged tasks cut nothing off |
| `SupervisorInvariant.FailKeeps` | core/NDimensionalExecutor.cxx:820-923 | a worker failure keeps the supervisor's invariant |
| `SupervisorSteps.AckKeeps` | core/NDimensionalExecutor.cxx:1619-1705 | an ACK keeps the invariant; it finishes a task exactly if its sender is registered and owns it as running |
| `SupervisorSteps.AckBKeeps` | core/NDimensionalExecutor.cxx:1707-1810 | an ACKB keeps the invariant, whatever ids it names; it ends the run only if a registered worker sends it while no message is unanswered |
| `SupervisorSteps.FillKeeps` | core/NDimensionalExecutor.cxx:1243-1302 | a filled batch has distinct tasks, each with the point its id stands for, at most as many as the batch size, and at least one if work is left below the task limit |
| `SupervisorDispatch.PickIs` | core/NDimensionalExecutor.cxx:1215-1241 | the round-robin search fails exactly if no registered worker may take another message |
| `SupervisorDispatch.CleanupKeeps` | core/NDimensionalExecutor.cxx:1371-1399 | removing the marked workers restores the invariant after a failed send |
| `SupervisorDispatch.DispatchKeeps` | core/NDimensionalExecutor.cxx:1212-1369 | a dispatch pass keeps the invariant; the tasks of a failed send stay in the outstanding counter |
| `SupervisorRuns.StepKeeps` | core/NDimensionalExecutor.cxx:1144-1828 | any event keeps the invariant unless it ends the run; which events end it is `Completion.StepEndsIff` |
| `SupervisorRuns.InitAckKeeps` | core/NDimensionalExecutor.cxx:1508-1542 | a worker that joins late has no history and no count |
| `SupervisorRuns.NoResultOfLostWorker` | core/NDimensionalExecutor.cxx:820-923 | in every reachable state each finished task is in the history of exactly one worker, and that worker is registered |
| `SupervisorRuns.SuccessMeansAllDone` | core/NDimensionalExecutor.cxx:1834-1842 | when the loop ends without an error the result is the volume of the box, the finished tasks are all tasks, nothing is pending or running, and no send of the run failed |
| `SupervisorProgress.CountersAreExact` | core/NDimensionalExecutor.cxx:842-889 | at every point of a run the counters are exact, the workers' counts sum to the acknowledged tasks, and a failure never takes off more than there is |
| `SupervisorProgress.AcceptedIsBounded` | core/NDimensionalExecutor.cxx:844-876 | accepted acknowledgements are the final count plus the undone ones, at most the number of tasks once more for each worker removed |
| `SupervisorProgress.NoJoinBound` | core/NDimensionalExecutor.cxx:1649-1686 | without joins, accepted acknowledgements and removed workers together are bounded by the first roster and the number of tasks |
| `SupervisorProgress.StepWeight` | core/NDimensionalExecutor.cxx:1649-1686 | live workers and unfinished tasks, weighted into one number, go down with every accepted acknowledgement and every removal |
| `SupervisorProgress.FailedSendIsFatal` | core/NDimensionalExecutor.cxx:1328-1336 | after a TCP message with tasks that the socket does not take, no continuation of the run ends in success |
| `SupervisorProgress.PassLoads` | core/NDimensionalExecutor.cxx:1280-1302 | a failed pass that finds a worker below the task limit is such a message |
| `SupervisorProgress.DispatchSpins` | core/NDimensionalExecutor.cxx:1308-1310 | at the task limit a pass of the TCP dispatcher that finds a worker changes nothing and is taken again for ever |
| `SupervisorProgress.CountsSumToAcked` | core/NDimensionalExecutor.cxx:1655-1660 | the completed counts of the registered workers add up to the acknowledged tasks |
| `Completion.CompletesIff` | core/NDimensionalExecutor.cxx:1144-1842 | a run that still has a worker which may take messages can be brought to success exactly if no task was in a failed send |
| `Completion.OneFailedSend` | core/NDimensionalExecutor.cxx:1328-1336 | from every start with two TCP workers or more, one failed send leaves a run that goes on without an error and can no longer succeed |
| `Completion.SpinsIff` | core/NDimensionalExecutor.cxx:1246-1310 | a pass that finds a worker has nothing to send exactly at the task limit |
| `Completion.SpinIsReached` | core/NDimensionalExecutor.cxx:1208-1369 | with more than four TCP workers for each task of a batch there is a run of failed sends after which the dispatch loop spins although a worker is left |
| `Completion.StepEndsIff` | core/NDimensionalExecutor.cxx:1144-1828 | for every event the exact condition under which it ends the run with an error: a worker given up ends it exactly if no rejoin is waited for and no other worker is registered |
| `Completion.LossCompletes` | core/NDimensionalExecutor.cxx:1405-1594 | after the loss of a worker, without a failed send, any other worker that is not marked can bring the run to success |
| `Completion.RejoinCompletes` | core/NDimensionalExecutor.cxx:1483-1594 | even after the last TCP worker has shut down, a worker that joins can bring the run to success |
| `RoundRobin.PickIsNext` | core/NDimensionalExecutor.cxx:1216-1241 | without TCP the worker at the round-robin position is picked; over TCP the first one from there on that is neither marked nor at its cap |
| `RoundRobin.TurnMoves` | core/NDimensionalExecutor.cxx:1216-1366 | a message that goes out moves the position just past its worker |
| `RoundRobin.TakesTurns` | core/NDimensionalExecutor.cxx:1215-1366 | over a run without TCP and with a steady roster the messages go round the roster, whatever answers come in between |
| `RoundRobin.MessagesAreShared` | core/NDimensionalExecutor.cxx:1215-1366 | in such a run as many messages in a row as there are workers go one to each, and no worker has ever had more than one message more than another |
| `BatchShares.FairBatchSize` | core/NDimensionalExecutor.cxx:1244-1248 | the batch size is the smallest number of which one per worker covers the remaining tasks, at least one and at most the configured size |
| `BatchShares.FairReplayShare` | core/NDimensionalExecutor.cxx:1250-1257 | of a batch of several tasks at most the largest number of which one per worker stays within the batch is redistributed, and at least one |
| `BatchShares.FillLoads` | core/NDimensionalExecutor.cxx:1250-1302 | the tasks of a batch are the head of the queue extended by the next new tasks: redistributed ones up to the share, then one more for each new task that still fits |
| `MainLoop.PlayReaches` | core/NDimensionalExecutor.cxx:1144-1828 | the loop over any turns is a run of the step machine |
| `MainLoopTheorems.AckHeard` | core/NDimensionalExecutor.cxx:1619-1705 | an ACK of a registered worker for a task it owns as running finishes exactly that task and moves both counters and the worker's messages by one; any other changes nothing |
| `MainLoopTheorems.AckBHeard` | core/NDimensionalExecutor.cxx:1707-1810 | an ACKB finishes exactly those of its ids that the sender owns, moves both counters by their number and takes one message off |
| `MainLoopTheorems.ShutdownHeard` | core/NDimensionalExecutor.cxx:1552-1594 | SHUTDOWN takes its worker off; it ends the run exactly without TCP and for the last worker |
| `MainLoopTheorems.SilenceHeard` | core/NDimensionalExecutor.cxx:1405-1477 | when nothing is received the silent and the exited workers are gone, and the run ends exactly if that leaves nobody or it is broken off |
| `MainLoopTheorems.ReadyHeard` | core/NDimensionalExecutor.cxx:1483-1506 | READY over TCP makes its sender an expected worker unless it is one or is registered; without TCP it ends the run |
| `MainLoopTheorems.InitAckHeard` | core/NDimensionalExecutor.cxx:1508-1542 | the answer to INIT puts an expected worker at the end of the roster, under the index it was given |
| `MainLoopTheorems.CheckEndsIff` | core/NDimensionalExecutor.cxx:1144-1207 | the checks before the dispatch loop end the run exactly on an interrupt or if nobody is left, unless a rejoin is waited for |
| `MainLoopTheorems.NobodyMarked` | core/NDimensionalExecutor.cxx:1371-1399 | after the dispatch loop of a TCP turn no registered worker is marked |
| `MainLoopTheorems.LoopFillsUp` | core/NDimensionalExecutor.cxx:1208-1369 | the dispatch loop ends with nothing left to send, or with as many messages in flight as workers and at least four, or with every unmarked TCP worker at its cap |
| `MainLoopTheorems.AnsweredDefinitionEnds` | core/NDimensionalExecutor.cxx:1144-1842 | as many turns as there are tasks, in each of which the messages go out and some worker answers its oldest one, finish the definition |
| `MainLoopTheorems.AnswersExist` | core/NDimensionalExecutor.cxx:1144-1842 | such turns exist from every start with a worker that was told: while work is left somebody owes an answer |
| `Dispatcher.IpcSession.HandleWorkerFailure` | core/NDimensionalExecutor.cxx:820-923 | the method computes the failure step on the object's fields |
| `Dispatcher.IpcSession.RemoveFailedWorkers` | core/NDimensionalExecutor.cxx:1371-1399 | the collecting and the removing loop compute the clean-up step |
| `Dispatcher.IpcSession.HandleAck` | core/NDimensionalExecutor.cxx:1619-1705 | the method computes the acknowledgement step |
| `Dispatcher.IpcSession.HandleAckTokens` | core/NDimensionalExecutor.cxx:1729-1804 | the token loop, which stops at an error, computes the acknowledgement of all tokens |
| `Dispatcher.IpcSession.FindCandidate` | core/NDimensionalExecutor.cxx:1219-1241 | the search loop computes the round-robin choice |
| `Dispatcher.IpcSession.TakeReplayed` | core/NDimensionalExecutor.cxx:1250-1274 | the loop over redistributed tasks computes the first part of a batch |
| `Dispatcher.IpcSession.TakeNewTasks` | core/NDimensionalExecutor.cxx:1280-1302 | the loop over new tasks, with the odometer advanced in place, computes the second part |
| `Dispatcher.IpcSession.DispatchPass` | core/NDimensionalExecutor.cxx:1212-1369 | the method computes the dispatch pass for either outcome of the send, and tells whether the loop is left |
| `Dispatcher.IpcSession.DispatchAll` | core/NDimensionalExecutor.cxx:1208-1369 | the inner dispatch loop, for any outcomes of its sends, computes the passes of the value model up to the first that leaves it |
| `Dispatcher.IpcSession.OneTurn` | core/NDimensionalExecutor.cxx:1144-1828 | one turn of the main loop, with its checks, its dispatch loop, the clean-up and one message, computes the turn of the value model, whose parts `MainLoopTheorems` describes |
| `Dispatcher.ExecuteCurrentBounds` | core/NDimensionalExecutor.cxx:925-1843 | whatever the sockets, the clock and the workers do in each turn, the call ends as the loop of the value model does, which is a run of the step machine: an error exactly if that run has one, else, once the loop has ended, the volume of the box, and the final check for left-over tasks never fails; when the messages go out and are answered it ends with the volume |
| `Flight.FailFlight` | core/NDimensionalExecutor.cxx:1064-1074 | a worker failure keeps the account of unanswered messages, whose sum over the workers is the message counter |
| `Flight.PassFlight` | core/NDimensionalExecutor.cxx:1366-1368 | a dispatch pass adds at most one message, with at most a batch of tasks nobody else owns |
| `Flight.AnswerAccepted` | core/NDimensionalExecutor.cxx:1671-1686 | the answer to the oldest message of a registered worker is accepted as a whole and meets no counter at zero |
| `Flight.AnswerFlight` | core/NDimensionalExecutor.cxx:1681-1685 | an answer takes exactly its message off the account |
| `Flight.JoinFlight` | core/NDimensionalExecutor.cxx:1525-1528 | a joining worker owes no answer and owns no task |
| `Flight.OutstandingBound` | core/NDimensionalExecutor.cxx:1258-1259 | the running tasks are at most as many as the unanswered messages can carry |
| `Flight.PassMakesProgress` | core/NDimensionalExecutor.cxx:1208-1369 | without failed sends a pass that finds a worker sends at least one task |
| `Workers.PeerKeeps` | core/NDimensionalIpcRunner.cxx:170-416 | whatever a registered worker does, its unanswered messages are those the supervisor waits for, in the order sent, and all it did was run on the right point, under the order in force exactly if it knows that order |
| `Workers.DeferKeepsQueue` | core/NDimensionalIpcRunner.cxx:256-273 | keeping a frame for later does not change the order in which frames are handled |
| `Workers.PostWork` | core/NDimensionalExecutor.cxx:1323-1365 | a posted task message is one more batch in flight and will be handled under the definition in force |
| `Workers.HeardAnswer` | core/NDimensionalIpcRunner.cxx:354-395 | the oldest answer of a worker answers its oldest message as a whole |
| `Workers.NewOrder` | core/NDimensionalExecutor.cxx:945-978 | SETDEF and SETIDS reach a worker which owes nothing: it stays in step, and runs its next tasks under the new order exactly if what was posted makes it know it |
| `Workers.AnnounceSets` | core/NDimensionalIpcRunner.cxx:303-326 | after an announcement a worker is under the order exactly if it has the definition or was told of one its binning has, and holds the ids sent, those it had, or none because SETDEF takes them |
| `Workers.JoinsAsMember` | core/NDimensionalExecutor.cxx:1508-1540 | a worker whose INIT is answered joins with nothing in flight, under the order exactly if what it held and the catch-up messages that went out make it so |
| `WorkerLoop.TaskLoop.HandleBatch` | core/NDimensionalIpcRunner.cxx:383-400 | from the abort checks alone: with n the first check that finds a signal or whose task throws, exactly the tasks before n run, in order and under the definition held; all done, one answer goes out and the loop goes on; after a signal the last word and then the answer for the n tasks, if any; after an exception the error report alone |
| `WorkerLoop.LoggedIs` | core/NDimensionalIpcRunner.cxx:383-400 | for different tasks the log of a batch has each with its payload and the definition held, and nothing else new |
| `WorkerLoop.TaskLoop.HandleNext` | core/NDimensionalIpcRunner.cxx:262-402 | one turn takes exactly the first waiting frame and does what it asks, a single task at once and several as a batch; a signal says goodbye, and without a frame nothing happens |
| `WorkerLoop.TaskLoop.SetCurrentDefinitionName` | core/NGnThreadData.cxx:309-319 | SETDEF takes the ids away; a definition the binning does not have leaves the current one in place |
| `WorkerLoop.TaskLoop.NextFrame` | core/NDimensionalIpcRunner.cxx:269-273 | a deferred frame comes before anything newer |
| `Cluster.MoveKeeps` | core/NDimensionalExecutor.cxx:1144-1828 | one move of supervisor, channel, worker, clock or socket keeps the joint invariant |
| `Cluster.DefineMoveKeeps` | core/NDimensionalExecutor.cxx:936-978 | the next definition may start once the loop of the last has ended, and the joint invariant carries over |
| `Cluster.EndedFlight` | core/NDimensionalExecutor.cxx:1144 | when the loop has ended no registered worker has a message unanswered |
| `ClusterTheorems.EveryResultIsReal` | core/NDimensionalExecutor.cxx:1662-1664 | every finished task was really processed, on its point, by the one registered worker that holds it |
| `ClusterTheorems.SuccessIsComplete` | core/NDimensionalExecutor.cxx:1834-1842 | on success every point of the box was processed by a worker that is still registered |
| `ClusterTheorems.ResultsAreAccepted` | core/NDimensionalExecutor.cxx:1634-1686 | results of a registered worker are never turned down and never meet a counter at zero |
| `ClusterTheorems.HeardAsMessage` | core/NDimensionalExecutor.cxx:1478-1828 | hearing a worker's reply in the session is what the main loop does with that message |
| `ClusterTheorems.DispatchMovesOn` | core/NDimensionalExecutor.cxx:1208-1369 | while no send of the definition has failed every pass that finds a worker sends a message with at least one task, until the message limit ends the loop |
| `ClusterTheorems.LoadIsBounded` | core/NDimensionalExecutor.cxx:1246-1261 | a worker's running tasks are at most its unanswered messages times the batch size, and no TCP worker exceeds its in-flight cap |
| `ClusterTheorems.MessageRoundTrip` | core/NDimensionalExecutor.cxx:1316-1352 | with bounds in the range of int the frames of the next message carry every task with its id and its point to the worker, and its id back |
| `ClusterTheorems.RunsUnderTheDefinition` | core/NDimensionalIpcRunner.cxx:303-387 | a registered worker runs every task on its point, and under the name and ids being dispatched exactly if it was told, over successive definitions and for late workers |
| `ClusterTheorems.FirstWorkersAreTold` | core/NDimensionalExecutor.cxx:945-978 | a worker that is there at the start and not marked was told, unless its binning does not have the definition |
| `ClusterTheorems.LateWorkerIsTold` | core/NDimensionalExecutor.cxx:1133-1142 | whatever a late worker holds and whichever catch-up messages go out, it handles its tasks under the order exactly if it has the definition, or was told of one it knows, and holds the right ids |
| `ClusterProgress.SessionCompletesIff` | core/NDimensionalExecutor.cxx:1144-1842 | while a registered worker lives, supervisor, channels and workers together can complete the definition exactly if no task was in a failed send |
| `ClusterCounterexamples.UntoldRunsElsewhere` | core/NDimensionalExecutor.cxx:1134-1142 | from every start there is a session in which a late worker that missed the catch-up runs a task of the box under another definition or other ids |
| `ClusterCounterexamples.InitedRegistersIff` | core/NDimensionalExecutor.cxx:1508-1540 | the answer to INIT registers the worker exactly if the INIT was sent during the current definition |
| `ClusterCounterexamples.ForgottenStays` | core/NDimensionalExecutor.cxx:999-1001 | a worker whose answer came too late stays outside over this and all later definitions unless its process starts again |
| `ClusterCounterexamples.MissedJoin` | core/NDimensionalExecutor.cxx:1479-1545 | from every start there is a session in which a living worker is left outside because a definition ended between its INIT and its answer |
| `ThreadPool.StepKeeps` | core/NDimensionalExecutor.cxx:273-418 | every step keeps the pool's invariant, in particular active_tasks is the queued plus the held tasks |
| `ThreadPool.NoPointRunsTwice` | core/NDimensionalExecutor.cxx:388-389 | no point is run twice, with or without exceptions |
| `ThreadPool.BoxRunsOnce` | core/NDimensionalExecutor.cxx:371-431 | when the call ends without an exception the function has been called exactly once on each point of the box, and never more than once |
| `ThreadPool.EveryPointRunsOnce` | core/NDimensionalExecutor.cxx:371-431 | without an exception every point has been run exactly once when the call ends; the counter is zero and the queue empty either way |
| `ThreadPool.DrainedForGood` | core/NDimensionalExecutor.cxx:321-337 | once the queue has been drained nothing is enqueued or taken any more and the exception to be rethrown is settled |
| `ThreadPool.FirstThrowStays` | core/NDimensionalExecutor.cxx:314-320 | the guarded variable ends up with the exception that was first to get the lock, and it is the one rethrown |
| `ThreadPool.RethrowsIff` | core/NDimensionalExecutor.cxx:311-431 | when the call ends it rethrows an exception exactly if some call of the function raised one |
| `ThreadPool.StepsRunOut` | core/NDimensionalExecutor.cxx:281-425 | a measure goes down with every step, so the pool takes finitely many |
| `ThreadPool.NeverStuck` | core/NDimensionalExecutor.cxx:288-425 | in every state but the last some thread can take its next step |
| `AxisPartition.IntervalsTile` | core/NBinning.cxx:634-670 | the intervals start at bin 1, leave no gap, do not overlap, and each is as wide as its entry says |
| `WidthLists.WidthListMeans` | core/NBinning.cxx:634-670 | the intervals registered for a width list are those of its entries in order, each entry laid behind the one before it as far as it fits |
| `WidthLists.EvenWidths` | core/NBinning.cxx:647-664 | a width without a count cuts the axis at its multiples, and fewer bins than the width remain behind the last cut |
| `WidthLists.CountedWidth` | core/NBinning.cxx:647-664 | an entry with a count lays exactly so many intervals, or as many as still fit |
| `AxisPartition.DecodeEncode` | core/NBinning.cxx:611-625 | decoding an encoded interval gives back exactly the interval, with and without the special case for single bins |
| `AxisPartition.EncodeInjective` | core/NBinning.cxx:611-625 | different intervals have different codes |
| `AxisPartition.EncodeInRange` | core/NBinning.cxx:617-625 | the three numbers of a code are bin numbers of the axis |
| `AxisPartition.RecoveredIff` | base/NUtils.cxx:1436-1454 | an interval is recovered by the decoder exactly if it starts on the axis; one that starts below does not decode |
| `AxisPartition.WholeAxis` | core/NBinning.cxx:1111 | the whole axis has the code an axis without a definition gets |
| `AxisPartition.DefaultIsWholeAxis` | core/NBinningDef.cxx:43-45 | the default width list of an axis is one interval, the whole axis |
| `AxisPartition.NBinning.AddBinning` | core/NBinning.cxx:560-592 | registers an interval and its shifted copies, each once |
| `AxisPartition.NBinning.AddBinningVariable` | core/NBinning.cxx:593-633 | walks the list of starts; a start off the axis ends the walk, one that does not increase is an error |
| `AxisPartition.ScanIs` | core/NBinning.cxx:604-630 | the walk registers the intervals before the first start that is off the axis or does not increase, and fails exactly if that start is on the axis |
| `AxisPartition.NBinning.AddBinningViaBinWidths` | core/NBinning.cxx:634-670 | registers exactly the intervals that tile the axis, in order |
| `AxisPartition.NBinning.RegisterDefinition` | core/NBinning.cxx:1076-1113 | clears the map and leaves in it, axis by axis, the codes of the intervals that tile each axis |
| `AxisPartition.NBinning.EntriesByAxis` | core/NBinning.cxx:424-461 | sorts the map by axis, keeping the order |
| `AxisPartition.DefinitionEntries` | core/NBinning.cxx:436-459 | grouped by axis, the map of a definition gives the tilings of its axes back |
| `AxisPartition.ComputeEdges` | core/NBinningDef.cxx:64-87 | the edge loop yields the first edge and the right ends of the same intervals, and its array is never overrun |
| `AxisPartition.DefinitionTiles` | core/NBinning.cxx:604-630 | every registered code decodes to its interval, whose right end is an edge of the definition |
| `PointPacking.GetAxisRanges` | core/NBinning.cxx:728-767 | the reader with its running index computes the range of every axis from its own slots; the first one off its axis ends it with nothing |
| `PointPacking.UnpackPacked` | core/NBinning.cxx:494-545 | reading a packed point gives exactly the intervals packed |
| `PointPacking.GetAxisBinning` | core/NBinning.cxx:768-814 | the reader of one axis skips exactly the slots of the axes before it |
| `PointPacking.EntryPacked` | core/NBinning.cxx:768-814 | on a packed point the entry read is the one packed for that axis |
| `PointPacking.DistinctIffOneUserEntry` | core/NBinning.cxx:494-508 | the combinations have pairwise distinct content coordinates exactly if no user axis has more than one entry; they are as many as the product of the entry counts |
| `PointPacking.RegisteredApart` | core/NBinning.cxx:446-449 | the codes registered for a rebinnable axis occupy different slots |
| `StorageIndex.StorageIsPosition` | core/NBinningPoint.cxx:179-189 | the storage coordinate of an interval is its position in the definition |
| `StorageIndex.NBinningDef.RefreshIdsFromContent` | core/NBinningDef.cxx:192-226 | collects the stored ids in the order of the cells |
| `StorageIndex.NBinningDef.RefreshContentFromIds` | core/NBinningDef.cxx:228-279 | stores every id, one too high, in the cell its content bin reads back to, or that of the point before, and lists the ids again in the order of the cells |
| `StorageIndex.NBinningPoint.SetPointContentFromLinearIndex` | core/NBinningPoint.cxx:263-280 | reads the bin and looks up its cell; on an error the storage coordinates stay as they were |
| `StorageIndex.RefreshIsStore` | core/NBinningDef.cxx:241-245 | for ids that can all be read each ends up in the cell of its own bin, whatever the point held before |
| `StorageIndex.RefreshSorts` | core/NBinningDef.cxx:228-279 | with a cell of its own for each id, refreshing permutes the list into the lexicographic order of the cells |
| `StorageIndex.RefreshIsIdempotent` | core/NBinningDef.cxx:192-279 | refreshing twice changes nothing more, and collecting the ids again gives the same list |
| `StorageIndex.NothingLostIff` | core/NBinningDef.cxx:241-245 | no id is lost exactly if each has a storage cell of its own |
| `DefinitionFill.NBinningContent.FillAll` | core/NBinning.cxx:416-558 | fills every combination in the order of the box: one content bin, one id and one storage cell each |
| `DefinitionFill.NBinningContent.AddBinningDefinition` | core/NBinning.cxx:1070-1120 | registers the axes, groups the map, computes the storage axes with the separate edge loop and fills every combination; the two loops agree on the size of every axis |
| `StorageIndex.PointCell` | core/NBinningPoint.cxx:109-194 | the storage cell of a combination is its place in the box, so distinct combinations have distinct cells |
| `DefinitionFill.FillNumbers` | core/NBinning.cxx:494-545 | the ids of a definition are pairwise distinct and as many as the product of the entry counts |
| `DefinitionFill.FilledIsInOrder` | core/NBinningDef.cxx:228-279 | after a definition has been filled each id has a cell of its own, the one its content bin reads back to, and refreshing keeps the list of ids |
| `DefinitionFill.FilledCell` | core/NBinningPoint.cxx:109-194 | the content bin of the k-th id, read back, has the k-th point of the box of combinations as its storage cell |
| `DefinitionFill.CollectAfterFillDiffers` | core/NBinning.cxx:526-528 | ids collected from a content that was filled and not refreshed are not those of the definition |
| `Reshape.ReshapeSparseAxes` | base/NUtils.cxx:513-680 | accepts exactly a permutation of all axes with a matching or empty new point; carries over the bins exactly if the new point is not empty |
| `Reshape.RemapInjective` | base/NUtils.cxx:652-661 | two bins are never carried to the same place |
| `Reshape.Recovers` | base/NUtils.cxx:652-661 | the inverse order recovers the original coordinates and the new point |
| `Reshape.NothingIsLost` | base/NUtils.cxx:643-665 | every filled bin keeps its value, nothing else is filled, and the sum is kept |
| `Reshape.MonitorLayout` | core/NResourceMonitor.cxx:75-82 | the order the monitor builds is accepted, and the coordinates it fills are the reshaped ones |
| `Reshape.FillCoords` | core/NResourceMonitor.cxx:94-105 | the loop builds the coordinates worker, point, statistic |

## Left out

- ZeroMQ sockets, fork, signals, clocks, environment variables and logging: they appear as inputs or as steps that may or may not happen; the effective batch size and the in-flight cap are parameters, at least 1.
- The progress callback and the counters that only feed log lines.
- Starting and finishing a session (BOOTSTRAP, the first READY round, STOP and DONE), the assignment of indices to bootstrapping workers, and identities that spell an index differently from the built one.
- STOP during a batch: it is only sent after the loop of a definition, so it is not a step of a worker here.
- An empty box of dimensions in the step machine: only `Dispatcher.ExecuteCurrentBounds` covers the early return for it.
- Integer width: task counts, products of extents and coordinates are unbounded here; only the texts of `Wire` have the ranges of int and of 64-bit numbers.
- ThreadPool.NeverStuck: does not speak about missed wake-ups, because the counter is decremented outside the mutex and a notification can fall between the waiter's check and its wait.
- Exceptions thrown while the main thread of the pool enqueues (memory exhaustion).
- Workers.PeerKeeps: a signal may also arrive after the last task of a batch and before its answer; the shutdown notice then precedes the answer, which the code sends first.
- ClusterProgress.SessionCompletesIff: says that the moves to the end exist, not that a fair schedule takes them; nothing is proved about time.
- AxisPartition.NBinning.AddBinning: requires a list of one or three numbers; with other lengths the code reads slots it never set or writes past its array.
- AxisPartition.NBinning.AddBinningViaBinWidths: requires a valid axis number, because the code indexes the axis list with it before checking, and non-negative counts; the shorthand that skips bins at the start is not modelled.
- DefinitionFill.NBinningContent.AddBinningDefinition: requires user axes not to be cut; a second definition of the same name, which the code refuses, and alphanumeric axes with their process exits are not modelled.
- StorageIndex.NBinningDef.RefreshContentFromIds: requires content bins whose intervals are not empty, as all bins that a definition fills are (`DefinitionFill.FilledReadable`).
- The optional check of a point against the list of ids of its definition.
- Labels, titles, minima and maxima of axes and points, and the errors of reshaped histograms.
- The second `GetAxisRangeInBase` overload, which only legacy code calls.
- Merging of results, the storage tree, the navigator, the servers and the schema builder.

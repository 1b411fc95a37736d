// The dispatcher as the object it is in the source: its methods update the counters, maps and lists in
// place, and each one is proved to compute the step of the value model of the same name.
module Dispatcher {
  import opened Collections
  import opened TaskState
  import opened Odometer
  import opened Supervisor
  import opened SupervisorInvariant
  import opened SupervisorSteps
  import opened SupervisorDispatch
  import opened SupervisorRuns
  import opened Flight
  import opened MainLoop
  import opened MainLoopTheorems
  import Wire

  lemma ReplayStep(t: Tasks, order: seq<Id>, n: nat)
    requires n < |order|
    ensures ReplayEach(t, order[..n + 1]) == ReplayOne(ReplayEach(t, order[..n]), order[n])
  {
    assert order[..n + 1][..n] == order[..n];
  }

  lemma FinishFields(s: Sup, w: Worker, id: Id)
    requires Accepts(s, w, id)
    ensures Finish(s, w, id) == s.(tasks := Finish(s, w, id).tasks, counts := Finish(s, w, id).counts)
  {
  }

  lemma RequeueNothing(t: Tasks, id: Id)
    requires !CanRequeue(t, id)
    ensures Requeue(t, id) == t
  {
  }

  lemma TokenStep(s: Sup, w: Worker, ids: seq<Id>, n: nat)
    requires n < |ids|
    ensures AckTokens(s, w, ids[..n + 1]) == AckToken(AckTokens(s, w, ids[..n]), w, ids[n])
  {
    assert ids[..n + 1][..n] == ids[..n];
  }

  // After an error the remaining tokens are not looked at.
  lemma {:induction false} TokensStop(s: Sup, w: Worker, ids: seq<Id>, n: nat)
    requires n <= |ids| && AckTokens(s, w, ids[..n]).error
    ensures AckTokens(s, w, ids) == AckTokens(s, w, ids[..n])
    decreases |ids|
  {
    hide Done, CountUp;
    if n == |ids| {
      assert ids[..n] == ids;
    } else {
      assert ids[..|ids| - 1][..n] == ids[..n];
      TokensStop(s, w, ids[..|ids| - 1], n);
    }
  }

  class IpcSession {
    const job: Job
    const taskStateManager: TaskStateManager
    const box: NDimensionalExecutor
    var workerTaskHistory: map<Worker, set<Id>>
    var workerIdentityVec: seq<Worker>
    var identityToWorker: map<Worker, nat>
    var failedTcpWorkers: set<Worker>
    var fLastWorkerTaskCounts: map<nat, nat>
    var inFlightMessagesPerWorker: map<Worker, nat>
    var outstandingMessages: nat
    var outstanding: nat
    var acked: nat
    var nextTaskId: nat
    var hasMore: bool
    var dispatchMessageId: nat
    var pendingInitWorkers: map<Worker, nat>
    var firstError: bool

    ghost function View(): Sup
      reads this, taskStateManager, box
    {
      Sup(taskStateManager.View(), workerTaskHistory, workerIdentityVec, identityToWorker, failedTcpWorkers,
          fLastWorkerTaskCounts, inFlightMessagesPerWorker, outstandingMessages, outstanding, acked, nextTaskId,
          box.fCurrentCoords, hasMore, dispatchMessageId, pendingInitWorkers, firstError)
    }

    // The task manager is in order and the odometer walks the box of the job.
    ghost predicate Valid()
      reads this, taskStateManager, box
    {
      && JobOk(job) && taskStateManager.Valid() && box.Valid()
      && box.fMinBounds == job.lo && box.fMaxBounds == job.hi
      && (hasMore ==> nextTaskId < TotalTasks(job) && box.fCurrentCoords == Point(job.lo, job.hi, nextTaskId))
    }

    // Start of a definition: nothing is known about tasks, the odometer stands at the first point.
    constructor (j: Job, roster: seq<Worker>, index: map<Worker, nat>, unreachable: set<Worker>)
      requires JobOk(j)
      ensures Valid() && job == j && fresh(taskStateManager) && fresh(box)
      ensures View() == Begin(j, roster, index, unreachable)
    {
      job := j;
      taskStateManager := new TaskStateManager();
      box := new NDimensionalExecutor(j.lo, j.hi);
      workerTaskHistory, workerIdentityVec, identityToWorker, failedTcpWorkers := map[], roster, index, unreachable;
      fLastWorkerTaskCounts, inFlightMessagesPerWorker, outstandingMessages := map[], map[], 0;
      outstanding, acked, nextTaskId, hasMore, dispatchMessageId := 0, 0, 0, true, 0;
      pendingInitWorkers, firstError := map[], false;
      new;
      FirstAndLast(j.lo, j.hi);
    }

    // ----- worker failure

    method ReplayTask(id: Id, live: nat, done: nat) returns (live': nat, done': nat)
      requires taskStateManager.Valid()
      modifies taskStateManager
      ensures taskStateManager.Valid()
      ensures Replay(taskStateManager.View(), live', done')
           == ReplayOne(Replay(old(taskStateManager.View()), live, done), id)
    {
      hide TasksInv, Requeue;
      live', done' := live, done;
      var wasDone := taskStateManager.IsDone(id);
      var requeued := taskStateManager.RequeueTask(id);
      if requeued {
        if wasDone {
          done' := done + 1;
        } else {
          live' := live + 1;
        }
      } else {
        RequeueNothing(old(taskStateManager.View()), id);
      }
    }

    // Puts every task of the worker's history back and counts how many were running and how many done.
    method ReplayHistory(w: Worker) returns (live: nat, done: nat)
      requires taskStateManager.Valid() && w in workerTaskHistory
      modifies taskStateManager
      ensures taskStateManager.Valid()
      ensures Replay(taskStateManager.View(), live, done)
           == ReplayEach(old(taskStateManager.View()), Ascending(workerTaskHistory[w]))
    {
      hide TasksInv, ReplayOne, TaskStateManager.View;
      live, done := 0, 0;
      ghost var before, order, n := taskStateManager.View(), Ascending(workerTaskHistory[w]), 0;
      var rest := workerTaskHistory[w];
      while rest != {}
        invariant n <= |order| && Ascending(rest) == order[n..]
        invariant taskStateManager.Valid()
        invariant Replay(taskStateManager.View(), live, done) == ReplayEach(before, order[..n])
        decreases |rest|
      {
        LeastExists(rest);
        var id :| id in rest && forall k :: k in rest ==> id <= k;
        AscendingStep(order, n, rest, id);
        ReplayStep(before, order, n);
        live, done := ReplayTask(id, live, done);
        rest := rest - {id};
        n := n + 1;
      }
      assert order[..n] == order;
    }

    // Replays the history, then recovers whatever the task manager still lists for the worker.
    method PutBack(w: Worker) returns (live: nat, done: nat)
      requires taskStateManager.Valid()
      modifies this`workerTaskHistory, taskStateManager
      ensures taskStateManager.Valid()
      ensures var r := ReplayEach(old(View()).tasks, Ascending(Sent(old(View()), w)));
              && View() == old(View()).(tasks := Recover(r.tasks, w), history := old(workerTaskHistory) - {w})
              && live == r.live + |TasksOf(r.tasks.workerTasks, w)| && done == r.done
    {
      hide TasksInv, ReplayOne, Recover;
      live, done := 0, 0;
      if w in workerTaskHistory {
        live, done := ReplayHistory(w);
        workerTaskHistory := workerTaskHistory - {w};
      }
      AscendingIs(TasksOf(taskStateManager.fWorkerToTasks, w));
      DistinctCard(Ascending(TasksOf(taskStateManager.fWorkerToTasks, w)));
      var recovered := taskStateManager.RecoverWorkerTasks(w);
      live := live + |recovered|;
    }

    method ReduceCounters(w: Worker, live: nat, done: nat)
      modifies this`outstanding, this`acked, this`fLastWorkerTaskCounts
      ensures View() == old(View()).(outstanding := old(outstanding) - Min(old(outstanding), live),
                                     acked := old(acked) - Min(old(acked), done),
                                     counts := CountsLeft(old(fLastWorkerTaskCounts), identityToWorker, w, live + done))
    {
      outstanding := outstanding - Min(outstanding, live);
      acked := acked - Min(acked, done);
      if w in identityToWorker {
        DeductCount(identityToWorker[w], live + done);
      }
    }

    method DeductCount(idx: nat, redistributed: nat)
      modifies this`fLastWorkerTaskCounts
      ensures View() == old(View()).(counts := Deduct(old(fLastWorkerTaskCounts), idx, redistributed))
    {
      if idx in fLastWorkerTaskCounts {
        var dec := Min(fLastWorkerTaskCounts[idx], redistributed);
        fLastWorkerTaskCounts := fLastWorkerTaskCounts[idx := fLastWorkerTaskCounts[idx] - dec];
        if fLastWorkerTaskCounts[idx] == 0 {
          fLastWorkerTaskCounts := fLastWorkerTaskCounts - {idx};
        }
      }
    }

    method Unlist(w: Worker)
      modifies this`workerIdentityVec, this`identityToWorker, this`failedTcpWorkers
      ensures View() == old(View()).(roster := RemoveFirst(old(workerIdentityVec), w),
                                     index := old(identityToWorker) - {w}, failed := old(failedTcpWorkers) - {w})
    {
      hide RemoveFirst;
      workerIdentityVec := RemoveFirst(workerIdentityVec, w);
      identityToWorker := identityToWorker - {w};
      failedTcpWorkers := failedTcpWorkers - {w};
    }

    method HandleWorkerFailure(w: Worker)
      requires Valid()
      modifies this, taskStateManager
      ensures Valid() && View() == HandleFailure(old(View()), w)
    {
      hide TasksInv, ReplayEach, Recover, RemoveFirst, Ascending, CountsLeft, TasksOf, JobOk;
      var live, done := PutBack(w);
      ReduceCounters(w, live, done);
      Unlist(w);
    }

    method ReleaseWorkerMessages(w: Worker)
      modifies this`outstandingMessages, this`inFlightMessagesPerWorker
      ensures View() == ReleaseMessages(old(View()), w)
    {
      if w in inFlightMessagesPerWorker {
        outstandingMessages := outstandingMessages - Min(outstandingMessages, inFlightMessagesPerWorker[w]);
        inFlightMessagesPerWorker := inFlightMessagesPerWorker - {w};
      }
    }

    method Fail(w: Worker)
      requires Valid()
      modifies this, taskStateManager
      ensures Valid() && View() == FailWorker(old(View()), w)
    {
      hide HandleFailure, ReleaseMessages, JobOk, TasksInv;
      HandleWorkerFailure(w);
      ReleaseWorkerMessages(w);
    }

    method MarkedWorkers() returns (workersToRemove: seq<Worker>)
      ensures workersToRemove == Marked(workerIdentityVec, failedTcpWorkers)
    {
      workersToRemove := [];
      for i := 0 to |workerIdentityVec|
        invariant workersToRemove + Marked(workerIdentityVec[i..], failedTcpWorkers)
               == Marked(workerIdentityVec, failedTcpWorkers)
      {
        assert workerIdentityVec[i..][1..] == workerIdentityVec[i + 1..];
        if workerIdentityVec[i] in failedTcpWorkers {
          workersToRemove := workersToRemove + [workerIdentityVec[i]];
        }
      }
      assert workerIdentityVec[|workerIdentityVec|..] == [];
    }

    method FailWorkers(ws: seq<Worker>)
      requires Valid()
      modifies this, taskStateManager
      ensures Valid() && View() == FailEach(old(View()), ws)
    {
      hide FailWorker, JobOk, TasksInv, View;
      for k := 0 to |ws|
        invariant Valid() && FailEach(View(), ws[k..]) == FailEach(old(View()), ws)
      {
        assert ws[k..][1..] == ws[k + 1..];
        Fail(ws[k]);
      }
      assert ws[|ws|..] == [];
    }

    // The marked workers are collected first, then taken off one by one.
    method RemoveFailedWorkers()
      requires Valid()
      modifies this, taskStateManager
      ensures Valid() && View() == Cleanup(old(View()))
    {
      hide FailEach, Marked, JobOk, TasksInv;
      if failedTcpWorkers == {} {
        return;
      }
      var workersToRemove := MarkedWorkers();
      FailWorkers(workersToRemove);
      if workerIdentityVec == [] {
        firstError := true;
      }
    }

    // A time-out or crash ends the run when nobody is left; after a SHUTDOWN over TCP workers may rejoin.
    method LoseWorker(w: Worker, grace: bool)
      requires Valid()
      modifies this, taskStateManager
      ensures Valid() && View() == Lost(old(View()), w, grace)
    {
      hide FailWorker, JobOk, TasksInv;
      Fail(w);
      if workerIdentityVec == [] && !grace {
        firstError := true;
      }
    }

    // ----- acknowledgements

    // Marks the task done if the worker is registered and owns it as running; anything else is stale.
    method MarkAcknowledged(w: Worker, id: Id) returns (accepted: bool)
      requires Valid()
      modifies this`fLastWorkerTaskCounts, taskStateManager
      ensures Valid() && (accepted <==> Accepts(old(View()), w, id))
      ensures View() == if accepted then Finish(old(View()), w, id) else old(View())
    {
      hide JobOk, TasksInv, Done;
      if w !in identityToWorker {
        return false;
      }
      var owner := taskStateManager.GetTaskWorker(id);
      if owner != w {
        return false;
      }
      accepted := taskStateManager.MarkDone(id);
      if accepted {
        var idx := identityToWorker[w];
        fLastWorkerTaskCounts := fLastWorkerTaskCounts[idx := Lookup(fLastWorkerTaskCounts, idx, 0) + 1];
      }
    }

    method MessageAnswered(w: Worker)
      requires outstandingMessages > 0
      modifies this`outstandingMessages, this`inFlightMessagesPerWorker
      ensures View() == old(View()).(messages := old(outstandingMessages) - 1,
                                     inFlight := OneLess(old(inFlightMessagesPerWorker), w))
    {
      outstandingMessages := outstandingMessages - 1;
      if w in inFlightMessagesPerWorker {
        var left := inFlightMessagesPerWorker[w];
        if left > 0 {
          left := left - 1;
        }
        inFlightMessagesPerWorker := inFlightMessagesPerWorker[w := left];
        if left == 0 {
          inFlightMessagesPerWorker := inFlightMessagesPerWorker - {w};
        }
      }
    }

    method CountAcked()
      requires outstanding > 0
      modifies this`outstanding, this`acked
      ensures View() == old(View()).(outstanding := old(outstanding) - 1, acked := old(acked) + 1)
    {
      outstanding := outstanding - 1;
      acked := acked + 1;
    }

    method HandleAck(w: Worker, id: Id)
      requires Valid()
      modifies this, taskStateManager
      ensures Valid() && View() == Ack(old(View()), w, id)
    {
      hide JobOk, TasksInv, Finish, Settle;
      var accepted := MarkAcknowledged(w, id);
      if accepted {
        SettleAck(w);
      }
    }

    method SettleAck(w: Worker)
      requires Valid()
      modifies this
      ensures Valid() && View() == Settle(old(View()), w)
    {
      hide JobOk, TasksInv, OneLess, Point, TotalTasks;
      if outstanding == 0 || outstandingMessages == 0 {
        firstError := true;
        return;
      }
      CountAcked();
      MessageAnswered(w);
    }

    method HandleAckToken(w: Worker, id: Id)
      requires Valid() && !firstError
      modifies this, taskStateManager
      ensures Valid() && View() == AckToken(old(View()), w, id)
    {
      hide JobOk, TasksInv, Finish;
      var accepted := MarkAcknowledged(w, id);
      if !accepted {
        return;
      }
      FinishFields(old(View()), w, id);
      if outstanding == 0 {
        firstError := true;
        return;
      }
      CountAcked();
    }

    method HandleAckTokens(w: Worker, ids: seq<Id>)
      requires Valid() && !firstError
      modifies this, taskStateManager
      ensures Valid() && View() == AckTokens(old(View()), w, ids)
    {
      hide JobOk, TasksInv, AckToken;
      var k := 0;
      assert ids[..0] == [];
      while k < |ids|
        invariant k <= |ids| && Valid() && !firstError
        invariant View() == AckTokens(old(View()), w, ids[..k])
      {
        TokenStep(old(View()), w, ids, k);
        HandleAckToken(w, ids[k]);
        k := k + 1;
        if firstError {
          TokensStop(old(View()), w, ids, k);
          return;
        }
      }
      assert ids[..k] == ids;
    }

    method HandleAckB(w: Worker, ids: seq<Id>)
      requires Valid() && !firstError
      modifies this, taskStateManager
      ensures Valid() && View() == AckB(old(View()), w, ids)
    {
      hide JobOk, TasksInv, AckTokens, OneLess;
      if w !in identityToWorker {
        return;
      }
      if outstandingMessages == 0 {
        firstError := true;
        return;
      }
      MessageAnswered(w);
      HandleAckTokens(w, ids);
    }
  
    // ----- dispatch

    method MayTake(w: Worker, ghost s: Sup) returns (r: bool)
      requires s.failed == failedTcpWorkers && s.inFlight == inFlightMessagesPerWorker
      ensures r == Eligible(job, s, w)
    {
      r := w !in failedTcpWorkers && (if w in inFlightMessagesPerWorker then inFlightMessagesPerWorker[w] else 0) < job.cap;
    }

    // Walks the round-robin order until it meets a worker that may take another message.
    method FindCandidate(ghost s: Sup) returns (found: bool, w: Worker, turn: nat)
      requires workerIdentityVec != [] && s.roster == workerIdentityVec && s.turn == dispatchMessageId
      requires s.failed == failedTcpWorkers && s.inFlight == inFlightMessagesPerWorker
      ensures Choice(found, w, turn) == Search(job, s, s.turn, |s.roster|)
    {
      hide Eligible;
      turn := dispatchMessageId;
      w := workerIdentityVec[turn % |workerIdentityVec|];
      var attempts := 0;
      while attempts < |workerIdentityVec|
        invariant attempts <= |s.roster| && w == s.roster[turn % |s.roster|]
        invariant Search(job, s, s.turn, |s.roster|) == Search(job, s, turn, |s.roster| - attempts)
      {
        var eligible := MayTake(w, s);
        if eligible {
          return true, w, turn;
        }
        turn := turn + 1;
        attempts := attempts + 1;
        w := workerIdentityVec[turn % |workerIdentityVec|];
      }
      return false, w, turn;
    }

    method SelectWorker() returns (found: bool, w: Worker)
      requires workerIdentityVec != []
      modifies this`dispatchMessageId
      ensures Choice(found, w, dispatchMessageId) == Pick(job, old(View()))
      ensures View() == old(View()).(turn := dispatchMessageId)
    {
      hide Search;
      found, w := true, workerIdentityVec[dispatchMessageId % |workerIdentityVec|];
      if job.tcp {
        found, w, dispatchMessageId := FindCandidate(View());
      }
    }

    method ClaimOne(w: Worker) returns (task: (Id, Payload))
      requires Valid() && taskStateManager.fPending != []
      modifies this`workerTaskHistory, this`outstanding, taskStateManager
      ensures Valid() && View() == ClaimFor(old(View()), w)
      ensures task == old(taskStateManager.fPending)[0]
    {
      hide JobOk, TasksInv, Claim, TotalTasks, Point;
      var claimed, id, payload := taskStateManager.ClaimNextPendingForWorker(w);
      task := (id, payload);
      workerTaskHistory := workerTaskHistory[w := TasksOf(workerTaskHistory, w) + {id}];
      outstanding := outstanding + 1;
    }

    // First tasks that were put back, at most a worker's share of them.
    method TakeReplayed(w: Worker, limit: nat, room: nat) returns (batchTasks: seq<(Id, Payload)>)
      requires Valid()
      modifies this`workerTaskHistory, this`outstanding, taskStateManager
      ensures Valid() && Filled(View(), batchTasks) == TakeQueued(Filled(old(View()), []), w, limit, room)
    {
      hide JobOk, TasksInv, ClaimFor;
      batchTasks := [];
      var added := 0;
      while taskStateManager.fPending != [] && outstanding < limit && added < room
        invariant added <= room && Valid()
        invariant TakeQueued(Filled(View(), batchTasks), w, limit, room - added)
               == TakeQueued(Filled(old(View()), []), w, limit, room)
        decreases room - added
      {
        var task := ClaimOne(w);
        batchTasks := batchTasks + [task];
        added := added + 1;
      }
    }

    method Advance()
      requires Valid() && hasMore
      modifies this`nextTaskId, this`hasMore, box`fCurrentCoords
      ensures Valid()
      ensures var more := old(nextTaskId) + 1 < TotalTasks(job);
              View() == old(View()).(next := old(nextTaskId) + 1, hasMore := more,
                                     cur := if more then Point(job.lo, job.hi, old(nextTaskId) + 1) else job.lo)
    {
      hide TasksInv, Point, Volume, JobOk;
      RankOfPoint(job.lo, job.hi, nextTaskId);
      nextTaskId := nextTaskId + 1;
      var more := box.Increment();
      if !more {
        hasMore := false;
      }
    }

    // Adds the current point as the next task, claims a task and moves the odometer on; false where the
    // source throws because the id is known.
    method TakeFresh(w: Worker) returns (taken: bool, task: (Id, Payload))
      requires Valid() && hasMore
      modifies this`workerTaskHistory, this`outstanding, this`nextTaskId, this`hasMore, taskStateManager, box`fCurrentCoords
      ensures Valid() && (taken <==> !Exists(old(View()).tasks, old(nextTaskId)))
      ensures taken ==> View() == ClaimFor(Fresh(job, old(View())), w)
      ensures taken ==> task == Fresh(job, old(View())).tasks.queue[0]
      ensures !taken ==> View() == old(View())
    {
      hide TasksInv, Point, Volume, JobOk, Claim, TotalTasks;
      task := (0, []);
      taken := taskStateManager.AddPending(nextTaskId, box.fCurrentCoords);
      if taken {
        task := ClaimOne(w);
        Advance();
      }
    }
  
    method TakeNewTasks(w: Worker, limit: nat, room: nat, batch: seq<(Id, Payload)>)
        returns (batchTasks: seq<(Id, Payload)>)
      requires Valid()
      modifies this, taskStateManager, box`fCurrentCoords
      ensures Valid() && Filled(View(), batchTasks) == TakeNew(job, Filled(old(View()), batch), w, limit, room)
    {
      hide JobOk, TasksInv, ClaimFor, Fresh, Exists, Point, TotalTasks;
      batchTasks := batch;
      var added := 0;
      while hasMore && outstanding < limit && added < room
        invariant added <= room && Valid()
        invariant TakeNew(job, Filled(View(), batchTasks), w, limit, room - added)
               == TakeNew(job, Filled(old(View()), batch), w, limit, room)
        decreases room - added
      {
        var taken, task := TakeFresh(w);
        if !taken {
          firstError := true;
          return;
        }
        batchTasks := batchTasks + [task];
        added := added + 1;
      }
    }

    method ComputeBatchSize() returns (size: nat)
      requires JobOk(job) && workerIdentityVec != []
      ensures size == BatchSize(job, View())
    {
      hide Volume;
      var nw := |workerIdentityVec|;
      var remaining := if nextTaskId < TotalTasks(job) then TotalTasks(job) - nextTaskId else 0;
      size := Max(1, Min(job.batch, Max(1, (remaining + nw - 1) / nw)));
    }

    method FillBatch(w: Worker) returns (batchTasks: seq<(Id, Payload)>)
      requires Valid() && workerIdentityVec != []
      modifies this, taskStateManager, box`fCurrentCoords
      ensures Valid() && Filled(View(), batchTasks) == Fill(job, old(View()), w)
    {
      hide JobOk, TasksInv, TakeQueued, TakeNew, BatchSize, Point, TotalTasks;
      var limit := Max(4, |workerIdentityVec|) * job.batch;
      var size := ComputeBatchSize();
      var share := if size > 1 then Max(1, size / |workerIdentityVec|) else 1;
      batchTasks := TakeReplayed(w, limit, Min(size, share));
      batchTasks := TakeNewTasks(w, limit, if |batchTasks| < size then size - |batchTasks| else 0, batchTasks);
    }

    method MarkBatchFailed(batch: seq<(Id, Payload)>)
      requires Valid()
      modifies taskStateManager
      ensures Valid() && View() == old(View()).(tasks := FailTasks(old(View()).tasks, batch))
    {
      hide JobOk, TasksInv, Failed, Point, TotalTasks;
      assert batch[..0] == [];
      for i := 0 to |batch|
        invariant Valid() && taskStateManager.View() == FailTasks(old(View()).tasks, batch[..i])
      {
        assert batch[..i + 1][..i] == batch[..i];
        var marked := taskStateManager.MarkFailed(batch[i].0);
      }
      assert batch[..|batch|] == batch;
    }

    method MessageSent(w: Worker)
      modifies this`dispatchMessageId, this`outstandingMessages, this`inFlightMessagesPerWorker
      ensures View() == old(View()).(turn := old(dispatchMessageId) + 1, messages := old(outstandingMessages) + 1,
                                     inFlight := old(inFlightMessagesPerWorker)[w := Unanswered(old(View()), w) + 1])
    {
      dispatchMessageId := dispatchMessageId + 1;
      outstandingMessages := outstandingMessages + 1;
      var n := if w in inFlightMessagesPerWorker then inFlightMessagesPerWorker[w] else 0;
      inFlightMessagesPerWorker := inFlightMessagesPerWorker[w := n + 1];
    }

    // The worker is marked and its batch put back, then the marked workers are taken off.
    method SendFailure(w: Worker, batch: seq<(Id, Payload)>)
      requires Valid()
      modifies this, taskStateManager
      ensures Valid()
      ensures View() == Cleanup(old(View()).(failed := old(failedTcpWorkers) + {w}, tasks := FailTasks(old(View()).tasks, batch)))
    {
      hide JobOk, TasksInv, FailTasks, Cleanup, Point, TotalTasks;
      failedTcpWorkers := failedTcpWorkers + {w};
      MarkBatchFailed(batch);
      RemoveFailedWorkers();
    }

    // One pass of the dispatch loop; sent is the outcome of the socket.
    method DispatchPass(sent: bool) returns (leave: bool)
      requires Valid() && workerIdentityVec != []
      modifies this, taskStateManager, box`fCurrentCoords
      ensures Valid() && View() == Dispatch(job, old(View()), sent)
      ensures !firstError ==> (leave <==> Leaves(job, old(View()), sent))
    {
      hide JobOk, TasksInv, FailTasks, Cleanup, Fill, Pick, Point, TotalTasks;
      var found, w := SelectWorker();
      if !found {
        return true;
      }
      var batch := FillBatch(w);
      if firstError || batch == [] {
        return false;
      }
      if sent {
        MessageSent(w);
      } else if job.tcp {
        SendFailure(w, batch);
      } else {
        firstError := true;
      }
      leave := !sent;
    }

    // The dispatch loop, with the outcomes of the socket it is given.
    method DispatchAll(sends: seq<bool>)
      requires Valid() && !firstError
      modifies this, taskStateManager, box`fCurrentCoords
      ensures Valid() && View() == PassAll(job, old(View()), sends)
    {
      hide TasksInv, Point, TotalTasks, Dispatch, Leaves, JobOk;
      var k := 0;
      var left := false;
      while k < |sends| && !left && (hasMore || taskStateManager.fPending != []) && !firstError
            && outstandingMessages < Max(4, |workerIdentityVec|)
        invariant k <= |sends| && Valid()
        invariant PassAll(job, old(View()), sends) == if left then View() else PassAll(job, View(), sends[k..])
        decreases |sends| - k
      {
        if workerIdentityVec == [] {
          break;
        }
        assert sends[k..][0] == sends[k] && sends[k..][1..] == sends[k + 1..];
        left := DispatchPass(sends[k]);
        k := k + 1;
        if firstError {
          break;
        }
      }
    }

    // ----- late workers

    method HandleReady(w: Worker, i: nat)
      modifies this`pendingInitWorkers
      ensures View() == Ready(old(View()), w, i)
    {
      if w !in identityToWorker && w !in pendingInitWorkers {
        pendingInitWorkers := pendingInitWorkers[w := i];
      }
    }

    method HandleReadyFrom(w: Worker, i: nat)
      modifies this`pendingInitWorkers, this`firstError
      ensures View() == Hear(job, old(View()), ReadyFrom(w, i))
    {
      if !job.tcp {
        firstError := true;
      } else if w == Worker(Wire.BuildWorkerIdentity(i)) {
        HandleReady(w, i);
      }
    }

    method HandleInitAck(w: Worker)
      modifies this`workerIdentityVec, this`identityToWorker, this`pendingInitWorkers
      ensures View() == InitAck(old(View()), w)
    {
      hide RemoveFirst;
      if w in pendingInitWorkers {
        var idx := pendingInitWorkers[w];
        if w in identityToWorker {
          workerIdentityVec := RemoveFirst(workerIdentityVec, w);
        }
        identityToWorker := identityToWorker[w := idx];
        workerIdentityVec := workerIdentityVec + [w];
        pendingInitWorkers := pendingInitWorkers - {w};
      }
    }
  
    // ----- the main loop

    // Workers given up one after the other, until nobody is left.
    method LoseEach(ws: seq<Worker>, skipMarked: bool)
      requires Valid()
      modifies this, taskStateManager
      ensures Valid() && View() == LoseAll(old(View()), ws, skipMarked)
    {
      hide JobOk, TasksInv, Point, TotalTasks, Lost;
      for k := 0 to |ws|
        invariant Valid() && LoseAll(View(), ws[k..], skipMarked) == LoseAll(old(View()), ws, skipMarked)
      {
        assert ws[k..][0] == ws[k] && ws[k..][1..] == ws[k + 1..];
        if !firstError && !(skipMarked && ws[k] in failedTcpWorkers) {
          LoseWorker(ws[k], false);
        }
        LoseNoMore(View(), ws[k + 1..], skipMarked);
      }
      assert ws[|ws|..] == [];
    }

    method DetectInactiveTcpWorkers(inactive: seq<Worker>)
      requires Valid()
      modifies this, taskStateManager
      ensures Valid() && View() == Detected(job, old(View()), inactive)
    {
      hide JobOk, TasksInv, LoseAll;
      if job.tcp {
        LoseEach(inactive, true);
      }
    }

    // Nothing was received: workers that are silent or gone are given up; a stall, a broken socket or an
    // interrupt ends the run.
    method HandleSilence(inactive: seq<Worker>, exited: seq<Worker>, broken: bool)
      requires Valid()
      modifies this, taskStateManager
      ensures Valid() && View() == Quiet(job, old(View()), inactive, exited, broken)
    {
      hide JobOk, TasksInv, LoseAll, Detected;
      DetectInactiveTcpWorkers(inactive);
      LoseEach(exited, false);
      if broken {
        firstError := true;
      }
    }

    method HandleIncoming(m: Incoming)
      requires Valid() && !firstError
      modifies this, taskStateManager
      ensures Valid() && View() == Hear(job, old(View()), m)
    {
      hide JobOk, TasksInv, Point, TotalTasks, Quiet, Ack, AckB, Lost, Ready, InitAck;
      match m {
        case Silence(inactive, exited, broken) => HandleSilence(inactive, exited, broken);
        case AckFrom(w, id) => HandleAck(w, id);
        case AckBFrom(w, ids) => HandleAckB(w, ids);
        case ReadyFrom(w, i) => HandleReadyFrom(w, i);
        case InitAckFrom(w) =>
          if job.tcp {
            HandleInitAck(w);
          }
        case ShutdownOf(w) => LoseWorker(w, job.tcp);
        case ErrOrMalformed => firstError := true;
        case Unconcerning =>
      }
    }

    // The checks before anything is sent: an interrupt, silent workers, and nobody left.
    method CheckWorkers(t: Turn)
      requires Valid() && !firstError
      modifies this, taskStateManager
      ensures Valid() && View() == Checked(job, old(View()), t)
    {
      hide JobOk, TasksInv, Detected;
      if t.interrupted {
        firstError := true;
        return;
      }
      DetectInactiveTcpWorkers(t.inactive);
      if workerIdentityVec == [] && (!job.tcp || t.graceOver) {
        firstError := true;
      }
    }

    // Sends what can be sent and removes the workers marked on the way.
    method SendOut(sends: seq<bool>)
      requires Valid() && !firstError
      modifies this, taskStateManager, box`fCurrentCoords
      ensures Valid() && View() == SentOut(job, old(View()), sends)
    {
      hide JobOk, TasksInv, PassAll, Cleanup;
      DispatchAll(sends);
      if job.tcp && !firstError {
        RemoveFailedWorkers();
      }
    }

    predicate MayGoOn()
      reads this, taskStateManager
    {
      (hasMore || outstanding > 0 || taskStateManager.fPending != []) && !firstError
    }

    // One turn of the main loop. An error leaves it at once; the message the source may still read
    // before it throws has no effect on what it throws.
    method OneTurn(t: Turn)
      requires Valid() && !firstError
      modifies this, taskStateManager, box`fCurrentCoords
      ensures Valid() && View() == TurnStep(job, old(View()), t)
    {
      hide JobOk, TasksInv, Checked, SentOut, Hear;
      CheckWorkers(t);
      if firstError {
        return;
      }
      SendOut(t.sends);
      if firstError || (outstanding == 0 && workerIdentityVec == [] && !job.tcp)
         || (outstanding == 0 && !hasMore && taskStateManager.fPending == []) {
        return;
      }
      HandleIncoming(t.incoming);
    }
  }

  lemma LoseNoMore(s: Sup, ws: seq<Worker>, skipMarked: bool)
    ensures s.error ==> LoseAll(s, ws, skipMarked) == s
  {
  }

  // How a call ends: with the number of acknowledged tasks, with an error, with tasks left over although
  // the loop ended, or still inside the loop when the given turns are used up.
  datatype Outcome = Finished(acked: nat) | Stopped | LeftOver(pending: nat, running: nat) | Unfinished

  // Dispatches one definition, whatever its surroundings do in each turn of the loop. If it ends without an
  // error, it has finished every task of the box.
  method ExecuteCurrentBounds(job: Job, roster: seq<Worker>, index: map<Worker, nat>, unreachable: set<Worker>,
                              turns: seq<Turn>) returns (outcome: Outcome)
    requires IsBox(job.lo, job.hi) && job.batch >= 1 && job.cap >= 1 && StartOk(roster, index)
    ensures outcome.Finished? ==> outcome.acked == if job.lo == [] then 0 else Volume(job.lo, job.hi)
    ensures !outcome.LeftOver? && (job.lo == [] ==> outcome.Finished?)
    ensures job.lo != [] ==>
              && JobOk(job)
              && var u := Play(job, Begin(job, roster, index, unreachable), turns);
                 && (outcome.Finished? <==> !u.error && LoopEnds(u)) && (outcome.Stopped? <==> u.error)
                 && (outcome.Finished? ==> Returns(u))
                 && (AlwaysAnswered(job, roster, index, unreachable, turns) ==> outcome.Finished?)
  {
    hide SupInv, TasksInv, Point, Volume, TurnStep, AlwaysAnswered;
    if job.lo == [] {
      return Finished(0);
    }
    var session := new IpcSession(job, roster, index, unreachable);
    ghost var s0 := Begin(job, roster, index, unreachable);
    var tasks := session.taskStateManager;
    var k := 0;
    var going := true;
    while k < |turns| && going
      invariant session.Valid() && session.job == job && session.taskStateManager == tasks
      invariant fresh(session) && fresh(tasks) && fresh(session.box)
      invariant k <= |turns|
      invariant going == session.MayGoOn() && Play(job, s0, turns) == Play(job, session.View(), turns[k..])
      decreases |turns| - k
    {
      assert turns[k..][0] == turns[k] && turns[k..][1..] == turns[k + 1..];
      session.OneTurn(turns[k]);
      k := k + 1;
      going := session.MayGoOn();
    }
    assert k == |turns| ==> turns[k..] == [];
    AnsweredEnds(job, roster, index, unreachable, turns);
    if session.firstError {
      return Stopped;
    }
    if going {
      return Unfinished;
    }
    var pending, running := |tasks.fPending|, |tasks.fRunning|;
    outcome := if pending > 0 || running > 0 then LeftOver(pending, running) else Finished(session.acked);
    PlayedOut(job, roster, index, unreachable, turns);
  }

  lemma AnsweredEnds(job: Job, roster: seq<Worker>, index: map<Worker, nat>, unreachable: set<Worker>, turns: seq<Turn>)
    requires JobOk(job) && StartOk(roster, index)
    ensures var u := Play(job, Begin(job, roster, index, unreachable), turns);
            AlwaysAnswered(job, roster, index, unreachable, turns) ==> !u.error && LoopEnds(u)
  {
    hide Play, LoopEnds, StartOk, AlwaysAnswered, Returns;
    if AlwaysAnswered(job, roster, index, unreachable, turns) {
      AnsweredDefinitionEnds(job, roster, index, unreachable, turns);
    }
  }

  // A loop that has ended without an error has finished the box.
  lemma PlayedOut(job: Job, roster: seq<Worker>, index: map<Worker, nat>, unreachable: set<Worker>, turns: seq<Turn>)
    requires JobOk(job) && StartOk(roster, index)
    ensures var u := Play(job, Begin(job, roster, index, unreachable), turns);
            !u.error && LoopEnds(u) ==> Returns(u) && u.acked == Volume(job.lo, job.hi)
  {
    hide Play, Legal, Run, LoopEnds, Returns, OnlyHolder, Volume, StartOk;
    var es := PlayReaches(job, Begin(job, roster, index, unreachable), turns);
    SuccessMeansAllDone(job, roster, index, unreachable, es);
  }
}

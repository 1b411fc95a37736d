// Failed sends, their clean-up and the dispatch pass keep the invariant.
module SupervisorDispatch {
  import opened Collections
  import opened TaskState
  import opened Odometer
  import opened Supervisor
  import opened SupervisorInvariant
  import opened SupervisorSteps

  // ----- what a step leaves alone for a worker it is not about

  function OwnedBy(t: Tasks, w: Worker): set<Id> { set id | id in t.owner && t.owner[id] == w }

  predicate SameFor(s: Sup, u: Sup, v: Worker) {
    && OwnedBy(u.tasks, v) == OwnedBy(s.tasks, v)
    && s.tasks.done * Sent(s, v) == u.tasks.done * Sent(u, v)
    && Unanswered(u, v) == Unanswered(s, v)
    && (v in u.index <==> v in s.index)
  }

  lemma FailFields(s: Sup, w: Worker, u: Sup)
    requires FailEffect(s, w, u)
    ensures u.tasks.owner == s.tasks.owner - Sent(s, w) && u.tasks.done == s.tasks.done - Sent(s, w)
    ensures u.tasks.running == s.tasks.running - Sent(s, w) && u.tasks.payloads == s.tasks.payloads
    ensures u.history == s.history - {w} && u.inFlight == s.inFlight - {w} && u.index == s.index - {w}
    ensures u.roster == RemoveFirst(s.roster, w) && u.error == s.error && u.failed == s.failed - {w}
    ensures u.joining == s.joining && u.next == s.next && u.hasMore == s.hasMore
  {
    hide TasksInv, LiveIn, DoneIn, Below, WithoutIndex, RemoveFirst, TasksOf;
  }

  lemma FailLeavesOthers(job: Job, s: Sup, a: Audit, stray: set<Id>, w: Worker, v: Worker)
    requires StrayInv(job, s, a, stray) && v != w
    ensures SameFor(s, FailWorker(s, w), v)
  {
    hide TasksInv, Numbered, Registered, Tallies, Counters, FailWorker, FailEffect, Recorded, Covered;
    FailWorkerIs(job, s, a, stray, w);
    var u := FailWorker(s, w);
    FailFields(s, w, u);
    SentApart(s.history, a.sentTo, v, w);
    OwnedElsewhere(s.tasks, a.sentTo, stray, s.history, v, w);
    assert OwnedBy(u.tasks, v) == OwnedBy(s.tasks, v) - Sent(s, w);
    assert Sent(u, v) == Sent(s, v);
  }

  lemma OwnedElsewhere(t: Tasks, sentTo: map<Id, Worker>, stray: set<Id>, h: map<Worker, set<Id>>, v: Worker, w: Worker)
    requires TasksInv(t) && Covered(t, sentTo, stray) && Recorded(h, sentTo) && v != w
    ensures OwnedBy(t, v) !! TasksOf(h, w)
  {
    forall id | id in OwnedBy(t, v) ensures id !in TasksOf(h, w) {
      assert id in t.running && sentTo[id] == v;
    }
  }

  // ----- failed sends

  lemma {:induction false} FailTasksIs(t: Tasks, batch: seq<(Id, Payload)>)
    requires TasksInv(t) && QueueIds(batch) <= t.running.Keys
    ensures var u := FailTasks(t, batch);
            && TasksInv(u)
            && u.running == t.running - QueueIds(batch) && u.owner == t.owner - QueueIds(batch)
            && u.pending == t.pending + QueueIds(batch)
            && u.done == t.done && u.payloads == t.payloads
  {
    hide TasksInv, QueueIds, Failed;
    if batch == [] {
      NoIds();
      assert t.running - {} == t.running && t.owner - {} == t.owner;
    } else {
      var init, e := batch[..|batch| - 1], batch[|batch| - 1];
      assert batch == init + [e];
      AppendIds(init, e);
      FailTasksIs(t, init);
      var u, ids := FailTasks(t, init), QueueIds(init);
      RequeueEffect(u, e.0);
      FailedIsRequeue(u, e.0);
      DoneApart(u);
      assert t.running - (ids + {e.0}) == (t.running - ids) - {e.0};
      assert t.owner - (ids + {e.0}) == (t.owner - ids) - {e.0};
    }
  }

  lemma NoIds()
    ensures QueueIds([]) == {}
  {
  }

  lemma FailedIsRequeue(t: Tasks, id: Id)
    ensures id in t.running ==> Failed(t, id) == Requeue(t, id)
  {
  }

  lemma DoneApart(t: Tasks)
    requires TasksInv(t)
    ensures t.done !! t.running.Keys && t.owner.Keys <= t.running.Keys
  {
  }

  // The state right after a failed send: the batch is pending again but still in the histories, and
  // the outstanding counter still includes it.
  function SendFailed(f: Filled, w: Worker): Sup {
    f.s.(failed := f.s.failed + {w}, tasks := FailTasks(f.s.tasks, f.batch))
  }

  lemma StrayCovered(t: Tasks, sentTo: map<Id, Worker>, ids: set<Id>, u: Tasks)
    requires Covered(t, sentTo, {}) && ids <= t.running.Keys
    requires u.running == t.running - ids && u.owner == t.owner - ids && u.pending == t.pending + ids && u.done == t.done
    ensures Covered(u, sentTo, ids)
  {
  }

  lemma LostCounters(t: Tasks, outstanding: nat, acked: nat, lost: nat, ids: set<Id>, u: Tasks)
    requires Counters(t, outstanding, acked, lost) && ids <= t.running.Keys
    requires u.running == t.running - ids && u.done == t.done
    ensures Counters(u, outstanding, acked, lost + |ids|)
  {
    MinusIntersection(t.running.Keys, ids);
    assert t.running.Keys * ids == ids && u.running.Keys == t.running.Keys - ids;
    assert |t.running| == |t.running.Keys| && |u.running| == |u.running.Keys|;
  }

  lemma LostBatch(t: Tasks, sentTo: map<Id, Worker>, batch: seq<(Id, Payload)>)
    requires TasksInv(t) && Covered(t, sentTo, {}) && QueueIds(batch) <= t.running.Keys
    ensures var u := FailTasks(t, batch);
            && TasksInv(u) && u.payloads == t.payloads && u.done == t.done
            && u.running == t.running - QueueIds(batch) && Covered(u, sentTo, QueueIds(batch))
  {
    hide TasksInv, Covered, QueueIds, FailTasks;
    FailTasksIs(t, batch);
    StrayCovered(t, sentTo, QueueIds(batch), FailTasks(t, batch));
  }

  lemma BatchRuns(t0: Tasks, t: Tasks, batch: seq<(Id, Payload)>, w: Worker)
    requires Loaded(t0, t, batch, w)
    ensures QueueIds(batch) <= t.running.Keys && |QueueIds(batch)| == |batch| && t.done == t0.done
  {
    hide QueueIds, UniqueIds;
    CountIds(batch);
  }

  lemma SendFailedTasks(job: Job, s0: Sup, a0: Audit, f: Filled, w: Worker)
    requires FillInv(job, s0, a0, f, w)
    ensures var ids, t := QueueIds(f.batch), FailTasks(f.s.tasks, f.batch);
            && TasksInv(t) && t.payloads == f.s.tasks.payloads && t.done == f.s.tasks.done
            && Covered(t, Credit(a0, ids, w).sentTo, ids)
            && Counters(t, f.s.outstanding, f.s.acked, Credit(a0, ids, w).lost + |f.batch|)
  {
    hide TasksInv, Covered, Counters, QueueIds, FailTasks, FillInv, Credit;
    var (ids, t) := (QueueIds(f.batch), FailTasks(f.s.tasks, f.batch));
    FilledBooks(job, s0, a0, f, w);
    LostBooks(f.s.tasks, Credit(a0, ids, w), f.batch, f.s.outstanding, f.s.acked);
  }

  lemma LostBooks(t: Tasks, b: Audit, batch: seq<(Id, Payload)>, outstanding: nat, acked: nat)
    requires TasksInv(t) && Covered(t, b.sentTo, {}) && Counters(t, outstanding, acked, b.lost)
    requires QueueIds(batch) <= t.running.Keys && |QueueIds(batch)| == |batch|
    ensures var u := FailTasks(t, batch);
            && TasksInv(u) && u.payloads == t.payloads && u.done == t.done
            && Covered(u, b.sentTo, QueueIds(batch)) && Counters(u, outstanding, acked, b.lost + |batch|)
  {
    hide TasksInv, Covered, Counters, QueueIds, FailTasks;
    LostBatch(t, b.sentTo, batch);
    LostCounters(t, outstanding, acked, b.lost, QueueIds(batch), FailTasks(t, batch));
  }

  // What the invariant of a filled batch says about its tasks, their histories and the counters.
  lemma FilledBooks(job: Job, s0: Sup, a0: Audit, f: Filled, w: Worker)
    requires FillInv(job, s0, a0, f, w)
    ensures var ids := QueueIds(f.batch);
            && ids <= f.s.tasks.running.Keys && |ids| == |f.batch| && TasksInv(f.s.tasks)
            && Covered(f.s.tasks, Credit(a0, ids, w).sentTo, {})
            && Counters(f.s.tasks, f.s.outstanding, f.s.acked, Credit(a0, ids, w).lost)
  {
    hide TasksInv, Recorded, Covered, Registered, Tallies, Numbered, Counters, QueueIds, Loaded, Pointed, Credit, Untouched;
    BatchRuns(s0.tasks, f.s.tasks, f.batch, w);
  }

  lemma SendFailedKeeps(job: Job, s0: Sup, a0: Audit, f: Filled, w: Worker)
    requires FillInv(job, s0, a0, f, w)
    ensures var ids := QueueIds(f.batch);
            StrayInv(job, SendFailed(f, w), Credit(a0, ids, w).(lost := a0.lost + |f.batch|), ids)
  {
    hide TasksInv, Recorded, Covered, Registered, Tallies, Numbered, Counters, QueueIds, Loaded, FailTasks, Pointed;
    SendFailedTasks(job, s0, a0, f, w);
  }

  // The clean-up takes every marked worker off; tasks that stray in their histories are gone with them.
  lemma {:induction false} FailEachKeeps(job: Job, s: Sup, a: Audit, stray: set<Id>, ws: seq<Worker>)
      returns (b: Audit, rest: set<Id>)
    requires StrayInv(job, s, a, stray)
    ensures StrayInv(job, FailEach(s, ws), b, rest) && b.lost == a.lost && rest <= stray
    ensures forall id :: id in rest && id in a.sentTo ==> a.sentTo[id] !in ws
    decreases |ws|
  {
    hide StrayInv, FailWorker, FailEffect;
    if ws == [] {
      return a, stray;
    }
    FailKeeps(job, s, a, stray, ws[0]);
    b, rest := FailEachKeeps(job, FailWorker(s, ws[0]), AfterFailure(a, s, ws[0]), stray - Sent(s, ws[0]), ws[1..]);
    forall id | id in rest && id in a.sentTo ensures a.sentTo[id] !in ws {
      NotOf(job, s, a, stray, ws[0], id);
    }
  }

  lemma {:induction false} FailEachFields(job: Job, s: Sup, a: Audit, stray: set<Id>, ws: seq<Worker>)
    requires StrayInv(job, s, a, stray)
    ensures FailEach(s, ws).index.Keys == s.index.Keys - ToSet(ws)
    ensures FailEach(s, ws).error == s.error && FailEach(s, ws).joining == s.joining
    ensures FailEach(s, ws).tasks.payloads == s.tasks.payloads && FailEach(s, ws).hasMore == s.hasMore
    ensures FailEach(s, ws).failed <= s.failed
    decreases |ws|
  {
    hide StrayInv, FailWorker, FailEffect;
    if ws != [] {
      FailKeeps(job, s, a, stray, ws[0]);
      FailFields(s, ws[0], FailWorker(s, ws[0]));
      FailEachFields(job, FailWorker(s, ws[0]), AfterFailure(a, s, ws[0]), stray - Sent(s, ws[0]), ws[1..]);
      assert forall v :: v in ws <==> v == ws[0] || v in ws[1..];
    }
  }

  lemma {:induction false} FailEachLeaves(job: Job, s: Sup, a: Audit, stray: set<Id>, ws: seq<Worker>, v: Worker)
    requires StrayInv(job, s, a, stray) && v !in ws
    ensures SameFor(s, FailEach(s, ws), v)
    decreases |ws|
  {
    hide StrayInv, FailWorker, FailEffect, OwnedBy, Sent;
    if ws != [] {
      FailKeeps(job, s, a, stray, ws[0]);
      FailLeavesOthers(job, s, a, stray, ws[0], v);
      FailEachLeaves(job, FailWorker(s, ws[0]), AfterFailure(a, s, ws[0]), stray - Sent(s, ws[0]), ws[1..], v);
    }
  }

  lemma NotOf(job: Job, s: Sup, a: Audit, stray: set<Id>, w: Worker, id: Id)
    requires StrayInv(job, s, a, stray) && id in a.sentTo && id !in Sent(s, w)
    ensures a.sentTo[id] != w && id in AfterFailure(a, s, w).sentTo
    ensures AfterFailure(a, s, w).sentTo[id] == a.sentTo[id]
  {
    hide TasksInv, Covered, Registered, Tallies, Numbered, Counters;
  }

  lemma {:induction false} MarkedIs(roster: seq<Worker>, failed: set<Worker>)
    ensures forall w :: w in Marked(roster, failed) <==> w in roster && w in failed
  {
    if roster != [] {
      MarkedIs(roster[1..], failed);
      assert forall w :: w in roster <==> w == roster[0] || w in roster[1..];
    }
  }

  // Tasks whose worker is registered and marked no longer stray after the clean-up.
  lemma CleanupKeeps(job: Job, s: Sup, a: Audit, stray: set<Id>) returns (b: Audit)
    requires StrayInv(job, s, a, stray) && !s.error
    requires forall id :: id in stray ==> id in a.sentTo && a.sentTo[id] in s.failed && a.sentTo[id] in s.roster
    ensures b.lost == a.lost && (!Cleanup(s).error ==> SupInv(job, Cleanup(s), b))
  {
    hide StrayInv, FailEach;
    if s.failed == {} {
      assert stray == {};
      return a;
    }
    MarkedIs(s.roster, s.failed);
    var rest: set<Id>;
    b, rest := FailEachKeeps(job, s, a, stray, Marked(s.roster, s.failed));
    assert rest == {};
  }

  // Nothing changes for a worker that is not marked, and no registered worker stays marked.
  lemma CleanupLeaves(job: Job, s: Sup, a: Audit, stray: set<Id>, v: Worker)
    requires StrayInv(job, s, a, stray) && !s.error
    ensures v !in s.failed ==> SameFor(s, Cleanup(s), v)
    ensures v in Cleanup(s).index ==> v in s.index && v !in s.failed
  {
    hide StrayInv, FailEach, OwnedBy, TasksOf;
    if s.failed != {} {
      MarkedIs(s.roster, s.failed);
      RosterRegistered(job, s, a, stray, v);
      FailEachFields(job, s, a, stray, Marked(s.roster, s.failed));
      if v !in s.failed {
        FailEachLeaves(job, s, a, stray, Marked(s.roster, s.failed), v);
      }
    }
  }

  // ----- one dispatch pass

  lemma {:induction false} SearchIs(job: Job, s: Sup, turn: nat, left: nat)
    requires s.roster != []
    ensures var c := Search(job, s, turn, left);
            && (c.found ==> c.worker in s.roster && Eligible(job, s, c.worker))
            && turn <= c.turn <= turn + left
            && (!c.found ==> c.turn == turn + left)
            && (!c.found ==> forall k :: turn <= k < turn + left ==> !Eligible(job, s, s.roster[k % |s.roster|]))
    decreases left
  {
    if left > 0 && !Eligible(job, s, s.roster[turn % |s.roster|]) {
      SearchIs(job, s, turn + 1, left - 1);
    }
  }

  lemma SlotReached(turn: nat, n: nat, i: nat) returns (k: nat)
    requires i < n
    ensures turn <= k < turn + n && k % n == i
  {
    var r := turn % n;
    k := if i >= r then turn + (i - r) else turn + (n - r + i);
    var q := turn / n;
    assert turn == q * n + r;
    if i >= r {
      assert k == q * n + i;
      DivModOf(q, n, i);
    } else {
      assert k == (q + 1) * n + i;
      DivModOf(q + 1, n, i);
    }
  }

  // The round-robin search fails only when no registered worker may take another message.
  lemma PickIs(job: Job, s: Sup)
    requires s.roster != []
    ensures Pick(job, s).found ==> Pick(job, s).worker in s.roster
    ensures job.tcp ==> (Pick(job, s).found <==> exists w :: w in s.roster && Eligible(job, s, w))
    ensures job.tcp && Pick(job, s).found ==> Eligible(job, s, Pick(job, s).worker)
  {
    if job.tcp {
      hide Eligible;
      SearchIs(job, s, s.turn, |s.roster|);
      if !Pick(job, s).found {
        forall w | w in s.roster ensures !Eligible(job, s, w) {
          var i :| 0 <= i < |s.roster| && s.roster[i] == w;
          var k := SlotReached(s.turn, |s.roster|, i);
        }
      }
    }
  }

  // Tasks of this pass that the socket did not take.
  function LostTasks(job: Job, s: Sup, sent: bool): nat
    requires JobOk(job) && s.roster != []
  {
    var c := Pick(job, s);
    if sent || !job.tcp || !c.found then 0 else |Fill(job, s.(turn := c.turn), c.worker).batch|
  }

  lemma RosterRegistered(job: Job, s: Sup, a: Audit, stray: set<Id>, w: Worker)
    requires StrayInv(job, s, a, stray)
    ensures w in s.roster <==> w in s.index
  {
    hide TasksInv, Covered, Recorded, Tallies, Numbered, Identity;
    assert w in s.roster <==> w in ToSet(s.roster);
  }

  lemma DispatchKeeps(job: Job, s: Sup, a: Audit, sent: bool) returns (b: Audit)
    requires SupInv(job, s, a) && !s.error && s.roster != []
    ensures var u := Dispatch(job, s, sent);
            !u.error ==> SupInv(job, u, b) && b.lost == a.lost + LostTasks(job, s, sent)
  {
    hide StrayInv, Fill, FillInv, Cleanup, FailTasks, Pick;
    PickIs(job, s);
    TasksOfInv(job, s, a);
    var c := Pick(job, s);
    var u := s.(turn := c.turn);
    Unrelated(job, s, a, {}, u);
    if !c.found {
      return a;
    }
    RosterRegistered(job, s, a, {}, c.worker);
    FillKeeps(job, u, a, c.worker);
    var f := Fill(job, u, c.worker);
    FillParts(job, u, a, f, c.worker);
    var credited := Credit(a, QueueIds(f.batch), c.worker);
    if f.s.error || f.batch == [] {
      return credited;
    } else if sent {
      Unrelated(job, f.s, credited, {}, Dispatch(job, s, sent));
      return credited;
    } else if job.tcp {
      SendFailedKeeps(job, u, a, f, c.worker);
      StrayOwners(a, f.batch, c.worker, s, f);
      b := CleanupKeeps(job, SendFailed(f, c.worker), credited.(lost := a.lost + |f.batch|), QueueIds(f.batch));
      assert SendFailed(f, c.worker) == f.s.(failed := f.s.failed + {c.worker}, tasks := FailTasks(f.s.tasks, f.batch));
    } else {
      return a;
    }
  }

  lemma FillParts(job: Job, s: Sup, a: Audit, f: Filled, w: Worker)
    requires FillInv(job, s, a, f, w)
    ensures SupInv(job, f.s, Credit(a, QueueIds(f.batch), w)) && Untouched(s, f.s)
    ensures Loaded(s.tasks, f.s.tasks, f.batch, w) && Pointed(job, f.batch)
  {
  }

  lemma StrayOwners(a: Audit, batch: seq<(Id, Payload)>, w: Worker, s: Sup, f: Filled)
    ensures forall id :: id in QueueIds(batch) ==>
      id in Credit(a, QueueIds(batch), w).sentTo && Credit(a, QueueIds(batch), w).sentTo[id] == w
  {
  }
}

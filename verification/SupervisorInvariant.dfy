// What every step of the supervisor keeps, for arbitrary messages, failures and send outcomes.
module SupervisorInvariant {
  import opened Collections
  import opened TaskState
  import opened Odometer
  import opened Supervisor
  import Wire

  // Auxiliary record of a run: how many tasks were in failed sends, and the worker each task was last
  // sent to since it was last put back.
  datatype Audit = Audit(lost: nat, sentTo: map<Id, Worker>)

  // The tasks created so far are 0 .. next - 1, task k carries the k-th point of the box, and the
  // odometer stands at the next one.
  ghost predicate Numbered(job: Job, payloads: map<Id, Payload>, next: nat, hasMore: bool, cur: Coords)
    requires JobOk(job)
  {
    && next <= TotalTasks(job)
    && (forall id: Id :: id in payloads <==> id < next)
    && (forall id :: id in payloads ==> payloads[id] == Point(job.lo, job.hi, id))
    && (hasMore <==> next < TotalTasks(job))
    && (hasMore ==> cur == Point(job.lo, job.hi, next))
  }

  // The history of a worker is exactly the tasks sent to it: no two histories share a task.
  ghost predicate Recorded(history: map<Worker, set<Id>>, sentTo: map<Id, Worker>) {
    && (forall w, id :: w in history && id in history[w] ==> id in sentTo && sentTo[id] == w)
    && (forall id :: id in sentTo ==> sentTo[id] in history && id in history[sentTo[id]])
  }

  // The histories cover exactly the running and the finished tasks. Between a failed send and the
  // removal of its worker the stray tasks of that send are pending but still listed.
  ghost predicate Covered(t: Tasks, sentTo: map<Id, Worker>, stray: set<Id>) {
    && sentTo.Keys == t.running.Keys + t.done + stray
    && stray <= t.pending
    && (forall id :: id in t.running ==> id in t.owner && t.owner[id] == sentTo[id])
  }

  function Identity(i: nat): Worker { Worker(Wire.BuildWorkerIdentity(i)) }

  // Workers identify themselves by the identity built from their index, so indices are not shared.
  ghost predicate Registered(roster: seq<Worker>, index: map<Worker, nat>, joining: map<Worker, nat>) {
    && Distinct(roster) && ToSet(roster) == index.Keys
    && (forall w :: w in index ==> w == Identity(index[w]))
    && (forall w :: w in joining ==> w !in index && w == Identity(joining[w]))
  }

  // A worker's count is the number of finished tasks in its history, and nobody else has a count.
  ghost predicate Tallies(done: set<Id>, history: map<Worker, set<Id>>, index: map<Worker, nat>, counts: map<nat, nat>) {
    history.Keys <= index.Keys && Counted(done, history, index, counts) && Named(index, counts)
  }

  ghost predicate Counted(done: set<Id>, history: map<Worker, set<Id>>, index: map<Worker, nat>, counts: map<nat, nat>) {
    forall w :: w in index ==> Lookup(counts, index[w], 0) == |done * TasksOf(history, w)|
  }

  ghost predicate Named(index: map<Worker, nat>, counts: map<nat, nat>) {
    forall i :: i in counts ==> counts[i] > 0 && Identity(i) in index && index[Identity(i)] == i
  }

  ghost predicate Counters(t: Tasks, outstanding: nat, acked: nat, lost: nat) {
    outstanding == |t.running| + lost && acked == |t.done|
  }

  ghost predicate StrayInv(job: Job, s: Sup, a: Audit, stray: set<Id>) {
    && JobOk(job) && TasksInv(s.tasks)
    && Numbered(job, s.tasks.payloads, s.next, s.hasMore, s.cur)
    && Recorded(s.history, a.sentTo) && Covered(s.tasks, a.sentTo, stray)
    && Registered(s.roster, s.index, s.joining)
    && Tallies(s.tasks.done, s.history, s.index, s.counts)
    && Counters(s.tasks, s.outstanding, s.acked, a.lost)
  }

  ghost predicate SupInv(job: Job, s: Sup, a: Audit) { StrayInv(job, s, a, {}) }

  lemma BeginInv(job: Job, roster: seq<Worker>, index: map<Worker, nat>, unreachable: set<Worker>)
    requires JobOk(job) && Distinct(roster) && ToSet(roster) == index.Keys
    requires forall w :: w in index ==> w == Identity(index[w])
    ensures SupInv(job, Begin(job, roster, index, unreachable), Audit(0, map[]))
  {
    hide TasksInv, Point, Volume;
    EmptyInv();
    FirstAndLast(job.lo, job.hi);
  }

  // ----- replay of a failed worker's history

  ghost predicate Replayed(t: Tasks, u: Tasks, ids: set<Id>) {
    && TasksInv(u)
    && u.running == t.running - ids && u.done == t.done - ids && u.payloads == t.payloads
    && u.owner == t.owner - ids
    && u.pending == t.pending + ids * (t.running.Keys + t.done)
  }

  lemma ReplayOneIs(t: Tasks, r: Replay, ids: set<Id>, id: Id)
    requires Replayed(t, r.tasks, ids) && id !in ids
    ensures Replayed(t, ReplayOne(r, id).tasks, ids + {id})
    ensures ReplayOne(r, id).live == r.live + (if id in t.running then 1 else 0)
    ensures ReplayOne(r, id).done == r.done + (if id in t.done then 1 else 0)
  {
    hide TasksInv, Requeue, CanRequeue;
    RequeueEffect(r.tasks, id);
    assert (ids + {id}) * (t.running.Keys + t.done)
        == ids * (t.running.Keys + t.done) + (if id in t.running || id in t.done then {id} else {});
    assert t.running - (ids + {id}) == (t.running - ids) - {id};
    assert t.owner - (ids + {id}) == (t.owner - ids) - {id};
  }

  lemma ReplayedNone(t: Tasks)
    requires TasksInv(t)
    ensures Replayed(t, t, {})
  {
    hide TasksInv;
    assert t.running - {} == t.running && t.owner - {} == t.owner;
  }

  lemma {:induction false} ReplayIs(t: Tasks, ids: seq<Id>)
    requires TasksInv(t) && Distinct(ids)
    ensures Replayed(t, ReplayEach(t, ids).tasks, ToSet(ids))
    ensures ReplayEach(t, ids).live == LiveIn(t, ToSet(ids))
    ensures ReplayEach(t, ids).done == DoneIn(t, ToSet(ids))
  {
    hide TasksInv, ReplayOne, Replayed;
    if ids == [] {
      assert ToSet(ids) == {};
      assert t.running.Keys * {} == {} && t.done * {} == {};
      ReplayedNone(t);
    } else {
      var init, id := ids[..|ids| - 1], ids[|ids| - 1];
      assert ids == init + [id] && id !in init;
      DistinctAppend(init, id);
      ReplayIs(t, init);
      assert ReplayEach(t, ids) == ReplayOne(ReplayEach(t, init), id);
      ReplayOneIs(t, ReplayEach(t, init), ToSet(init), id);
      IntersectAdd(t.running.Keys, ToSet(init), id);
      IntersectAdd(t.done, ToSet(init), id);
    }
  }

  lemma IntersectAdd(a: set<Id>, b: set<Id>, x: Id)
    requires x !in b
    ensures |a * (b + {x})| == |a * b| + (if x in a then 1 else 0)
  {
    if x in a {
      assert a * (b + {x}) == a * b + {x};
    } else {
      assert a * (b + {x}) == a * b;
    }
  }

  // After the history is replayed the reconciliation by owner finds nothing left to recover.
  lemma NothingLeftToRecover(job: Job, s: Sup, a: Audit, stray: set<Id>, w: Worker)
    requires StrayInv(job, s, a, stray)
    ensures var t := ReplayEach(s.tasks, Ascending(Sent(s, w))).tasks;
            w !in t.workerTasks && Recover(t, w) == t
  {
    hide ReplayEach, Numbered, Registered, Tallies, Counters;
    AscendingIs(Sent(s, w));
    ReplayIs(s.tasks, Ascending(Sent(s, w)));
    OwnedAreListed(s, w, a, stray, ReplayEach(s.tasks, Ascending(Sent(s, w))).tasks);
    OwnerlessWorker(ReplayEach(s.tasks, Ascending(Sent(s, w))).tasks, w);
  }

  lemma OwnedAreListed(s: Sup, w: Worker, a: Audit, stray: set<Id>, t: Tasks)
    requires OwnersInverse(s.tasks) && t.owner == s.tasks.owner - Sent(s, w)
    requires Recorded(s.history, a.sentTo) && Covered(s.tasks, a.sentTo, stray)
    ensures forall id :: id in t.owner ==> t.owner[id] != w
  {
    forall id | id in t.owner ensures t.owner[id] != w {
      assert id in s.tasks.running && a.sentTo[id] == s.tasks.owner[id] && id !in Sent(s, w);
    }
  }

  lemma OwnerlessWorker(t: Tasks, w: Worker)
    requires OwnersInverse(t) && forall id :: id in t.owner ==> t.owner[id] != w
    ensures w !in t.workerTasks
  {
    if w in t.workerTasks {
      var id := SomeOwned(t, w);
      assert false;
    }
  }

  lemma SomeOwned(t: Tasks, w: Worker) returns (id: Id)
    requires OwnersInverse(t) && w in t.workerTasks
    ensures id in t.owner && t.owner[id] == w
  {
    id :| id in t.workerTasks[w];
  }

  function Below(n: nat, k: nat): nat { if k <= n then n - k else 0 }

  function WithoutIndex(counts: map<nat, nat>, index: map<Worker, nat>, w: Worker): map<nat, nat> {
    if w in index then counts - {index[w]} else counts
  }

  function LiveIn(t: Tasks, ids: set<Id>): nat { |t.running.Keys * ids| }

  function DoneIn(t: Tasks, ids: set<Id>): nat { |t.done * ids| }

  // What a worker failure does to every field. The clamps on the outstanding and the acknowledged tasks
  // cut nothing off; that on the worker's count takes away more than the count whenever running tasks
  // were replayed, and that on the messages is exact as long as they are those owed (module Flight).
  ghost predicate FailEffect(s: Sup, w: Worker, u: Sup) {
    && Replayed(s.tasks, u.tasks, Sent(s, w))
    && u.outstanding == s.outstanding - LiveIn(s.tasks, Sent(s, w))
    && u.acked == s.acked - DoneIn(s.tasks, Sent(s, w))
    && u.messages == Below(s.messages, Unanswered(s, w)) && u.inFlight == s.inFlight - {w}
    && u.counts == WithoutIndex(s.counts, s.index, w)
    && Unlisted(s, w, u)
  }

  ghost predicate Unlisted(s: Sup, w: Worker, u: Sup) {
    && u.history == s.history - {w} && u.index == s.index - {w} && u.roster == RemoveFirst(s.roster, w)
    && u.failed == s.failed - {w} && u.joining == s.joining && u.error == s.error
    && u.next == s.next && u.cur == s.cur && u.hasMore == s.hasMore && u.turn == s.turn
  }

  // A worker's whole count goes: it never exceeds what was replayed.
  lemma CountGoes(s: Sup, w: Worker, n: nat)
    requires Tallies(s.tasks.done, s.history, s.index, s.counts) && DoneIn(s.tasks, Sent(s, w)) <= n
    ensures CountsLeft(s.counts, s.index, w, n) == WithoutIndex(s.counts, s.index, w)
  {
    hide Identity, TasksOf;
  }

  lemma CountsCovered(t: Tasks, outstanding: nat, acked: nat, lost: nat, ids: set<Id>)
    requires Counters(t, outstanding, acked, lost)
    ensures LiveIn(t, ids) <= outstanding && DoneIn(t, ids) <= acked
  {
    SubsetCard(t.running.Keys * ids, t.running.Keys);
    SubsetCard(t.done * ids, t.done);
    assert |t.running| == |t.running.Keys|;
  }

  lemma FailWorkerFields(s: Sup, w: Worker, r: Replay)
    requires r == ReplayEach(s.tasks, Ascending(Sent(s, w)))
    ensures var u, live := FailWorker(s, w), r.live + |TasksOf(r.tasks.workerTasks, w)|;
            && u.tasks == Recover(r.tasks, w)
            && u.outstanding == s.outstanding - Min(s.outstanding, live) && u.acked == s.acked - Min(s.acked, r.done)
            && u.counts == CountsLeft(s.counts, s.index, w, live + r.done)
            && u.messages == s.messages - Min(s.messages, Unanswered(s, w)) && u.inFlight == s.inFlight - {w}
            && Unlisted(s, w, u)
  {
    hide ReplayEach, Recover, Min, CountsLeft, RemoveFirst, Ascending, Sent;
  }

  lemma NothingOwned(t: Tasks, w: Worker)
    requires w !in t.workerTasks
    ensures |TasksOf(t.workerTasks, w)| == 0
  {
  }

  lemma FailWorkerIs(job: Job, s: Sup, a: Audit, stray: set<Id>, w: Worker)
    requires StrayInv(job, s, a, stray)
    ensures FailEffect(s, w, FailWorker(s, w))
  {
    hide TasksInv, Numbered, ReplayEach, Recover, Recorded, Covered, Registered, Tallies, Counters;
    hide FailWorker, Unlisted, CountsLeft, WithoutIndex, Replayed, LiveIn, DoneIn, TasksOf, ToSet, Distinct, Lookup;
    var r := ReplayEach(s.tasks, Ascending(Sent(s, w)));
    FailWorkerFields(s, w, r);
    AscendingIs(Sent(s, w));
    ReplayIs(s.tasks, Ascending(Sent(s, w)));
    NothingLeftToRecover(job, s, a, stray, w);
    NothingOwned(r.tasks, w);
    CountsCovered(s.tasks, s.outstanding, s.acked, a.lost, Sent(s, w));
    CountGoes(s, w, r.live + r.done);
  }

  // ----- each part of the invariant survives a worker failure

  lemma {:induction false} RemoveFirstIs(roster: seq<Worker>, w: Worker)
    requires Distinct(roster)
    ensures Distinct(RemoveFirst(roster, w)) && ToSet(RemoveFirst(roster, w)) == ToSet(roster) - {w}
    ensures |RemoveFirst(roster, w)| == if w in roster then |roster| - 1 else |roster|
  {
    if roster != [] {
      DistinctTail(roster);
      RemoveFirstIs(roster[1..], w);
      if roster[0] != w {
        var rest := RemoveFirst(roster[1..], w);
        assert roster[0] !in ToSet(rest);
        assert ToSet(RemoveFirst(roster, w)) == {roster[0]} + ToSet(rest);
      }
    }
  }

  lemma FailRecorded(history: map<Worker, set<Id>>, sentTo: map<Id, Worker>, w: Worker)
    requires Recorded(history, sentTo)
    ensures Recorded(history - {w}, sentTo - TasksOf(history, w))
  {
    var (h, to) := (history - {w}, sentTo - TasksOf(history, w));
    forall id | id in to ensures to[id] in h && id in h[to[id]] {
      assert sentTo[id] in history && id in history[sentTo[id]];
    }
    forall v, id | v in h && id in h[v] ensures id in to && to[id] == v {
      assert v in history && id in TasksOf(history, v);
      SentApart(history, sentTo, v, w);
    }
  }

  lemma FailCovered(t: Tasks, sentTo: map<Id, Worker>, stray: set<Id>, ids: set<Id>, u: Tasks)
    requires Covered(t, sentTo, stray) && Replayed(t, u, ids)
    ensures Covered(u, sentTo - ids, stray - ids)
  {
    hide TasksInv;
  }

  lemma SentApart(history: map<Worker, set<Id>>, sentTo: map<Id, Worker>, v: Worker, w: Worker)
    requires Recorded(history, sentTo) && v != w
    ensures TasksOf(history, v) !! TasksOf(history, w)
  {
    forall id | id in TasksOf(history, v) ensures id !in TasksOf(history, w) {
      assert sentTo[id] == v;
    }
  }

  lemma OtherIndex(roster: seq<Worker>, index: map<Worker, nat>, joining: map<Worker, nat>, v: Worker, w: Worker)
    requires Registered(roster, index, joining) && v in index && w in index && v != w
    ensures index[v] != index[w]
  {
    hide Identity;
  }

  lemma FailTally(done: set<Id>, history: map<Worker, set<Id>>, sentTo: map<Id, Worker>, v: Worker, w: Worker)
    requires Recorded(history, sentTo) && v != w
    ensures (done - TasksOf(history, w)) * TasksOf(history - {w}, v) == done * TasksOf(history, v)
  {
    hide Recorded;
    SentApart(history, sentTo, v, w);
  }

  lemma FailCounted(s: Sup, sentTo: map<Id, Worker>, w: Worker)
    requires Registered(s.roster, s.index, s.joining) && Recorded(s.history, sentTo)
    requires Counted(s.tasks.done, s.history, s.index, s.counts)
    ensures Counted(s.tasks.done - Sent(s, w), s.history - {w}, s.index - {w}, WithoutIndex(s.counts, s.index, w))
  {
    hide Identity, Registered, Recorded, TasksOf;
    var (index, counts) := (s.index - {w}, WithoutIndex(s.counts, s.index, w));
    forall v | v in index
      ensures Lookup(counts, index[v], 0) == |(s.tasks.done - Sent(s, w)) * TasksOf(s.history - {w}, v)|
    {
      if w in s.index {
        OtherIndex(s.roster, s.index, s.joining, v, w);
      }
      FailTally(s.tasks.done, s.history, sentTo, v, w);
    }
  }

  lemma FailNamed(index: map<Worker, nat>, counts: map<nat, nat>, w: Worker)
    requires Named(index, counts)
    ensures Named(index - {w}, WithoutIndex(counts, index, w))
  {
    hide Identity;
  }

  lemma FailTallies(s: Sup, sentTo: map<Id, Worker>, w: Worker)
    requires Registered(s.roster, s.index, s.joining) && Recorded(s.history, sentTo)
    requires Tallies(s.tasks.done, s.history, s.index, s.counts)
    ensures Tallies(s.tasks.done - Sent(s, w), s.history - {w}, s.index - {w}, WithoutIndex(s.counts, s.index, w))
  {
    hide Registered, Recorded, Counted, Named, TasksOf, WithoutIndex;
    FailCounted(s, sentTo, w);
    FailNamed(s.index, s.counts, w);
    KeysWithout(s.history, s.index, w);
  }

  lemma KeysWithout(history: map<Worker, set<Id>>, index: map<Worker, nat>, w: Worker)
    requires history.Keys <= index.Keys
    ensures (history - {w}).Keys <= (index - {w}).Keys
  {
  }

  lemma MinusIntersection(a: set<Id>, b: set<Id>)
    ensures |a - b| == |a| - |a * b|
  {
    assert a == (a - b) + (a * b);
  }

  function AfterFailure(a: Audit, s: Sup, w: Worker): Audit { a.(sentTo := a.sentTo - Sent(s, w)) }

  lemma FailRegistered(roster: seq<Worker>, index: map<Worker, nat>, joining: map<Worker, nat>, w: Worker)
    requires Registered(roster, index, joining)
    ensures Registered(RemoveFirst(roster, w), index - {w}, joining)
  {
    RemoveFirstIs(roster, w);
  }

  lemma FailCounters(t: Tasks, outstanding: nat, acked: nat, lost: nat, ids: set<Id>, u: Tasks)
    requires Counters(t, outstanding, acked, lost) && u.running == t.running - ids && u.done == t.done - ids
    ensures LiveIn(t, ids) <= outstanding && DoneIn(t, ids) <= acked
    ensures Counters(u, outstanding - LiveIn(t, ids), acked - DoneIn(t, ids), lost)
  {
    MinusIntersection(t.running.Keys, ids);
    MinusIntersection(t.done, ids);
    assert u.running.Keys == t.running.Keys - ids;
    assert |u.running| == |u.running.Keys| && |t.running| == |t.running.Keys|;
  }

  lemma ReplayedFields(t: Tasks, u: Tasks, ids: set<Id>)
    requires Replayed(t, u, ids)
    ensures TasksInv(u) && u.running == t.running - ids && u.done == t.done - ids
    ensures u.payloads == t.payloads && u.owner == t.owner - ids
  {
    hide TasksInv;
  }

  lemma FailHistories(job: Job, s: Sup, a: Audit, stray: set<Id>, w: Worker, u: Sup)
    requires StrayInv(job, s, a, stray) && FailEffect(s, w, u)
    ensures Recorded(u.history, a.sentTo - Sent(s, w)) && Covered(u.tasks, a.sentTo - Sent(s, w), stray - Sent(s, w))
  {
    hide TasksInv, RemoveFirst, Recorded, Covered, Tallies, Registered, Numbered, Counters;
    hide Replayed, WithoutIndex, Unanswered, LiveIn, DoneIn, Below, TasksOf;
    FailRecorded(s.history, a.sentTo, w);
    FailCovered(s.tasks, a.sentTo, stray, Sent(s, w), u.tasks);
  }

  lemma FailRoster(job: Job, s: Sup, a: Audit, stray: set<Id>, w: Worker, u: Sup)
    requires StrayInv(job, s, a, stray) && FailEffect(s, w, u)
    ensures Registered(u.roster, u.index, u.joining) && Tallies(u.tasks.done, u.history, u.index, u.counts)
  {
    hide TasksInv, RemoveFirst, Recorded, Covered, Tallies, Registered, Numbered, Counters;
    hide Replayed, WithoutIndex, Unanswered, LiveIn, DoneIn, Below, TasksOf;
    ReplayedFields(s.tasks, u.tasks, Sent(s, w));
    FailRegistered(s.roster, s.index, s.joining, w);
    FailTallies(s, a.sentTo, w);
  }

  lemma FailTotals(job: Job, s: Sup, a: Audit, stray: set<Id>, w: Worker, u: Sup)
    requires StrayInv(job, s, a, stray) && FailEffect(s, w, u)
    ensures TasksInv(u.tasks) && Numbered(job, u.tasks.payloads, u.next, u.hasMore, u.cur)
    ensures Counters(u.tasks, u.outstanding, u.acked, a.lost)
  {
    hide TasksInv, RemoveFirst, Recorded, Covered, Tallies, Registered, Numbered, Counters;
    hide Replayed, WithoutIndex, Unanswered, LiveIn, DoneIn, Below, TasksOf;
    ReplayedFields(s.tasks, u.tasks, Sent(s, w));
    FailCounters(s.tasks, s.outstanding, s.acked, a.lost, Sent(s, w), u.tasks);
  }

  lemma FailKeeps(job: Job, s: Sup, a: Audit, stray: set<Id>, w: Worker)
    requires StrayInv(job, s, a, stray)
    ensures StrayInv(job, FailWorker(s, w), AfterFailure(a, s, w), stray - Sent(s, w))
    ensures FailEffect(s, w, FailWorker(s, w))
  {
    hide FailWorker, FailEffect, Recorded, Covered, Tallies, Registered, Numbered, Counters, TasksInv, TasksOf;
    var u := FailWorker(s, w);
    FailWorkerIs(job, s, a, stray, w);
    FailHistories(job, s, a, stray, w, u);
    FailRoster(job, s, a, stray, w, u);
    FailTotals(job, s, a, stray, w, u);
  }
}

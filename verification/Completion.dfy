// Which runs of the dispatcher can still end in success: exactly those without a failed send. And a
// family of runs in which failed sends leave the dispatch loop spinning.
module Completion {
  import opened Collections
  import opened TaskState
  import opened Odometer
  import opened Supervisor
  import opened SupervisorInvariant
  import opened SupervisorSteps
  import opened SupervisorDispatch
  import opened SupervisorRuns
  import opened SupervisorProgress
  import opened Flight

  ghost predicate Completes(job: Job, s: Sup, es: seq<Event>)
    requires JobOk(job)
  {
    Legal(job, s, es) && !Run(job, s, es).error && LoopEnds(Run(job, s, es))
  }

  // ----- the two steps of a completing run

  lemma {:induction false} SumOfNone(m: map<Worker, nat>, ws: seq<Worker>)
    requires forall w :: w in ws ==> Lookup(m, w, 0) == 0
    ensures SumOf(m, ws) == 0
  {
    if ws != [] {
      assert ws[0] in ws && forall w :: w in ws[1..] ==> w in ws;
      SumOfNone(m, ws[1..]);
    }
  }

  lemma NothingOwed(job: Job, s: Sup, a: Audit, flight: map<Worker, Batches>)
    requires SupInv(job, s, a) && FlightInv(job, s, flight) && forall w :: w in s.index ==> FlightOf(flight, w) == []
    ensures s.messages == 0 && s.tasks.running == map[]
    ensures forall w :: w in s.index ==> Unanswered(s, w) == 0
  {
    hide StrayInv, OwnedBy, SumOf, Flat;
    forall w | w in s.index ensures Unanswered(s, w) == 0 {
      assert OneFlight(job, OwnedBy(s.tasks, w), Unanswered(s, w), FlightOf(flight, w));
    }
    forall w | w in s.roster ensures Lookup(s.inFlight, w, 0) == 0 {
      RosterRegistered(job, s, a, {}, w);
      assert Unanswered(s, w) == 0;
    }
    SumOfNone(s.inFlight, s.roster);
    OutstandingBound(job, s, a, flight);
    assert |s.tasks.running| == 0;
    assert s.tasks.running.Keys == {};
  }

  // A pass whose message goes out changes neither the workers nor the finished tasks.
  lemma SentPass(job: Job, s: Sup, a: Audit)
    requires SupInv(job, s, a) && JobOk(job) && s.roster != [] && !s.error
    ensures var u := Dispatch(job, s, true);
            u.index == s.index && u.failed == s.failed && u.tasks.done == s.tasks.done && u.joining == s.joining
  {
    hide StrayInv, FillInv, Fill, Pick, Cleanup, Dispatch, SendFailed, QueueIds, Credit;
    DispatchCases(job, s, true);
    PickIs(job, s);
    var c := Pick(job, s);
    var u := s.(turn := c.turn);
    Unrelated(job, s, a, {}, u);
    if c.found {
      RosterRegistered(job, s, a, {}, c.worker);
      FillKeeps(job, u, a, c.worker);
      var f := Fill(job, u, c.worker);
      FillParts(job, u, a, f, c.worker);
      BatchRuns(u.tasks, f.s.tasks, f.batch, c.worker);
    }
  }

  function AnswerEvent(w: Worker, ids: seq<Id>): Event { if |ids| == 1 then GotAck(w, ids[0]) else GotAckB(w, ids) }

  lemma AnswerStep(job: Job, s: Sup, w: Worker, ids: seq<Id>)
    requires JobOk(job) && !s.error
    ensures Enabled(job, s, AnswerEvent(w, ids)) && Step(job, s, AnswerEvent(w, ids)) == Answered(s, w, ids)
  {
    hide Ack, AckB;
  }

  // Answering the oldest message of a worker finishes at least one more task.
  lemma AnswerGrows(job: Job, s: Sup, a: Audit, flight: map<Worker, Batches>, w: Worker)
    requires SupInv(job, s, a) && FlightInv(job, s, flight) && !s.error && w in s.index && FlightOf(flight, w) != []
    ensures var u := Answered(s, w, FlightOf(flight, w)[0]);
            && |u.tasks.done| > |s.tasks.done| && u.index == s.index && u.failed == s.failed && u.joining == s.joining
  {
    hide StrayInv, OwnedBy, Answered, SumOf, Flat;
    var ids := FlightOf(flight, w)[0];
    AnswerAccepted(job, s, a, flight, w);
    assert OneFlight(job, OwnedBy(s.tasks, w), Unanswered(s, w), FlightOf(flight, w));
    FirstBatch(job, OwnedBy(s.tasks, w), Unanswered(s, w), FlightOf(flight, w));
    OwnedNotDone(job, s, a, w);
    assert ids[0] in ToSet(ids);
    SubsetCard(s.tasks.done + {ids[0]}, s.tasks.done + ToSet(ids));
  }

  lemma OwnedNotDone(job: Job, s: Sup, a: Audit, w: Worker)
    requires SupInv(job, s, a)
    ensures OwnedBy(s.tasks, w) !! s.tasks.done
  {
    hide QueueIndexed, PayloadsAgree, Inverse, Numbered, Recorded, Covered, Registered, Tallies, Counters;
  }

  lemma CanContinue(job: Job, s: Sup, a: Audit, flight: map<Worker, Batches>, w: Worker)
    requires SupInv(job, s, a) && FlightInv(job, s, flight) && JobOk(job) && !s.error && a.lost == 0
    requires w in s.index && w !in s.failed && !LoopEnds(s)
    requires forall v :: v in s.index ==> FlightOf(flight, v) == []
    ensures s.messages == 0 && CanDispatch(s) && Pick(job, s).found
  {
    hide StrayInv, FlightInv, Search;
    NothingOwed(job, s, a, flight);
    TasksOfInv(job, s, a);
    RosterRegistered(job, s, a, {}, w);
    PickIs(job, s);
    assert Eligible(job, s, w);
  }

  // From every state without a failed send in which some registered worker is not marked, the run can
  // be brought to its end: answer the oldest messages, and send the next batch when none is left.
  lemma CompletingRun(job: Job, s: Sup, a: Audit, flight: map<Worker, Batches>, w: Worker) returns (es: seq<Event>)
    requires SupInv(job, s, a) && FlightInv(job, s, flight) && JobOk(job) && !s.error && a.lost == 0
    requires w in s.index && w !in s.failed
    ensures Completes(job, s, es)
    decreases TotalTasks(job) - |s.tasks.done|, if s.messages == 0 then 1 else 0
  {
    hide StrayInv, FlightInv, Dispatch, Answered, LoopEnds, Pick, PassBatch, TotalTasks, AnswerEffect, AfterPass;
    DoneWithin(job, s, a, {});
    if LoopEnds(s) {
      return [];
    }
    var e: Event;
    var more: seq<Event>;
    if v :| v in s.index && FlightOf(flight, v) != [] {
      e := AnswerEvent(v, FlightOf(flight, v)[0]);
      AnswerStep(job, s, v, FlightOf(flight, v)[0]);
      AnswerAccepted(job, s, a, flight, v);
      AnswerFlight(job, s, a, flight, v);
      AnswerGrows(job, s, a, flight, v);
      DoneWithin(job, Step(job, s, e), a, {});
      more := CompletingRun(job, Step(job, s, e), a, flight[v := FlightOf(flight, v)[1..]], w);
    } else {
      e := Pass(true);
      CanContinue(job, s, a, flight, w);
      PassMakesProgress(job, s, a, flight);
      var b := DispatchKeeps(job, s, a, true);
      PassFlight(job, s, a, flight, true);
      SentPass(job, s, a);
      more := CompletingRun(job, Step(job, s, e), b, AfterPass(job, s, flight, true), w);
    }
    es := [e] + more;
    assert es[0] == e && es[1..] == more;
  }

  // A run whose books are in order can still end in success exactly if no task was in a failed send.
  lemma CompletesIff(job: Job, s: Sup, a: Audit, flight: map<Worker, Batches>, w: Worker)
    requires SupInv(job, s, a) && FlightInv(job, s, flight) && JobOk(job) && !s.error
    requires w in s.index && w !in s.failed
    ensures a.lost == 0 <==> exists es :: Completes(job, s, es)
  {
    hide StrayInv, FlightInv, Run, Legal, LoopEnds;
    if a.lost == 0 {
      var es := CompletingRun(job, s, a, flight, w);
    }
    forall es | Completes(job, s, es) ensures a.lost == 0 {
      var b := RunKeeps(job, s, a, es);
      EndedState(job, Run(job, s, es), b);
    }
  }

  // ----- failed sends and the dispatch loop

  // A pass that finds a worker has nothing to send exactly at the task limit.
  lemma SpinsIff(job: Job, s: Sup, a: Audit)
    requires SupInv(job, s, a) && JobOk(job) && CanDispatch(s) && Pick(job, s).found
    ensures PassBatch(job, s) == [] <==> s.outstanding >= MaxMessages(s) * job.batch
  {
    hide StrayInv, Fill, FillInv, Pick;
    PickIs(job, s);
    var (c, u) := (Pick(job, s), s.(turn := Pick(job, s).turn));
    Unrelated(job, s, a, {}, u);
    RosterRegistered(job, s, a, {}, c.worker);
    if s.outstanding >= MaxMessages(s) * job.batch {
      FillAtLimit(job, u, c.worker);
    } else {
      FillKeeps(job, u, a, c.worker);
    }
  }

  // Nothing has been finished and nothing is on its way: all tasks sent so far were in failed sends.
  ghost predicate Barren(job: Job, s: Sup, a: Audit) {
    && SupInv(job, s, a) && !s.error && s.failed == {} && s.messages == 0 && s.inFlight == map[]
    && s.tasks.running == map[] && s.tasks.done == {}
  }

  lemma BarrenFinds(job: Job, s: Sup, a: Audit)
    requires Barren(job, s, a) && JobOk(job) && job.tcp && s.roster != []
    ensures Pick(job, s).found
  {
    hide StrayInv, Pick;
    PickIs(job, s);
    assert s.roster[0] in s.roster && Eligible(job, s, s.roster[0]);
  }

  lemma {:induction false} MarkedOne(roster: seq<Worker>, w: Worker)
    requires Distinct(roster)
    ensures Marked(roster, {w}) == if w in roster then [w] else []
    ensures w in roster ==> |RemoveFirst(roster, w)| == |roster| - 1
  {
    if roster != [] {
      DistinctTail(roster);
      MarkedOne(roster[1..], w);
      assert forall v :: v in roster <==> v == roster[0] || v in roster[1..];
    }
  }

  lemma QueueHasPending(t: Tasks, id: Id)
    requires TasksInv(t) && id in t.pending
    ensures t.queue != []
  {
    hide Partitioned, PayloadsAgree, OwnersInverse;
  }

  lemma BarrenBatch(job: Job, s: Sup, a: Audit, f: Filled, w: Worker)
    requires Barren(job, s, a) && FillInv(job, s, a, f, w) && f.batch != []
    ensures var (t, id) := (SendFailed(f, w).tasks, f.batch[0].0);
            TasksInv(t) && t.running == map[] && t.done == {} && id in t.pending
  {
    hide StrayInv, FailTasks, TasksInv, UniqueIds;
    TasksOfInv(job, s, a);
    FilledBooks(job, s, a, f, w);
    BatchRuns(s.tasks, f.s.tasks, f.batch, w);
    OnlyBatchRuns(s.tasks, f.s.tasks, f.batch, w);
    FailTasksIs(f.s.tasks, f.batch);
    assert f.batch[0].0 in QueueIds(f.batch);
  }

  lemma OnlyBatchRuns(t0: Tasks, t: Tasks, batch: seq<(Id, Payload)>, w: Worker)
    requires Loaded(t0, t, batch, w) && t0.running == map[]
    ensures t.running.Keys == QueueIds(batch)
  {
    hide UniqueIds;
  }

  // A failed pass takes one worker off and leaves its tasks in the outstanding counter.
  lemma BarrenPass(job: Job, s: Sup, a: Audit) returns (b: Audit)
    requires Barren(job, s, a) && JobOk(job) && job.tcp && CanDispatch(s) && |s.roster| >= 2
    requires s.outstanding < MaxMessages(s) * job.batch
    ensures var u := Dispatch(job, s, false);
            && Barren(job, u, b) && |u.roster| == |s.roster| - 1 && u.outstanding > s.outstanding && CanDispatch(u)
            && LostTasks(job, s, false) > 0 && b.lost > 0
  {
    hide StrayInv, Fill, FillInv, Pick, Cleanup, SendFailed, Dispatch, Marked, QueueIds, Credit;
    DispatchCases(job, s, false);
    BarrenFinds(job, s, a);
    PickIs(job, s);
    var (w, u) := (Pick(job, s).worker, s.(turn := Pick(job, s).turn));
    Unrelated(job, s, a, {}, u);
    RosterRegistered(job, s, a, {}, w);
    DistinctRoster(job, s, a, {});
    var f := Fill(job, u, w);
    FillKeeps(job, u, a, w);
    FillParts(job, u, a, f, w);
    BarrenCleanup(job, u, a, f, w);
    b := DispatchKeeps(job, s, a, false);
  }

  lemma BarrenCleanup(job: Job, s: Sup, a: Audit, f: Filled, w: Worker)
    requires Barren(job, s, a) && FillInv(job, s, a, f, w) && f.batch != [] && |s.roster| >= 2
    requires Distinct(s.roster) && w in s.roster
    ensures var u := Cleanup(SendFailed(f, w));
            && !u.error && u.failed == {} && u.messages == 0 && u.inFlight == map[] && |u.roster| == |s.roster| - 1
            && u.tasks.running == map[] && u.tasks.done == {} && u.tasks.queue != []
            && u.outstanding == s.outstanding + |f.batch|
  {
    hide StrayInv, FailTasks, TasksInv, FailWorker, FailEffect, Loaded, Pointed;
    hide QueueIds, Credit, Sent, RemoveFirst, Marked;
    var (t, ids) := (SendFailed(f, w), QueueIds(f.batch));
    SendFailedKeeps(job, s, a, f, w);
    BarrenBatch(job, s, a, f, w);
    FailWorkerIs(job, t, Credit(a, ids, w).(lost := a.lost + |f.batch|), ids, w);
    BarrenFailure(t, w, FailWorker(t, w), f.batch[0].0);
    assert t.failed == {w} && t.roster == s.roster;
    MarkedOne(s.roster, w);
    FailOne(t, w);
  }

  lemma FailOne(s: Sup, w: Worker)
    ensures FailEach(s, [w]) == FailWorker(s, w)
  {
    hide FailWorker;
    assert [w][1..] == [];
  }

  lemma BarrenFailure(s: Sup, w: Worker, u: Sup, id: Id)
    requires FailEffect(s, w, u) && s.failed == {w} && s.messages == 0 && s.inFlight == map[]
    requires s.tasks.running == map[] && s.tasks.done == {} && id in s.tasks.pending
    ensures u.failed == {} && u.messages == 0 && u.inFlight == map[] && u.error == s.error
    ensures u.roster == RemoveFirst(s.roster, w) && u.outstanding == s.outstanding
    ensures u.tasks.running == map[] && u.tasks.done == {} && u.tasks.queue != []
  {
    hide TasksInv, RemoveFirst, WithoutIndex;
    assert s.tasks.running.Keys * Sent(s, w) == {};
    QueueHasPending(u.tasks, id);
  }

  ghost predicate AllFail(es: seq<Event>) { forall k :: 0 <= k < |es| ==> es[k] == Pass(false) }

  lemma SpinFrom(job: Job, s: Sup, a: Audit) returns (es: seq<Event>)
    requires Barren(job, s, a) && JobOk(job) && job.tcp && CanDispatch(s)
    requires s.outstanding + |s.roster| > 4 * job.batch
    ensures AllFail(es) && Legal(job, s, es)
    ensures var u := Run(job, s, es);
            u.messages == 0 && CanDispatch(u) && Pick(job, u).found && u.outstanding >= MaxMessages(u) * job.batch
    decreases |s.roster|
  {
    hide Barren, Dispatch, Pick;
    BarrenFinds(job, s, a);
    if s.outstanding >= MaxMessages(s) * job.batch {
      BarrenIdle(job, s, a);
      return [];
    }
    var b := BarrenPass(job, s, a);
    var more := SpinFrom(job, Dispatch(job, s, false), b);
    es := [Pass(false)] + more;
    assert es[1..] == more;
  }

  lemma BarrenIdle(job: Job, s: Sup, a: Audit)
    requires Barren(job, s, a)
    ensures s.messages == 0
  {
    hide StrayInv;
  }

  lemma BarrenStart(job: Job, roster: seq<Worker>, index: map<Worker, nat>)
    requires JobOk(job) && StartOk(roster, index) && roster != []
    ensures Barren(job, Begin(job, roster, index, {}), Audit(0, map[])) && CanDispatch(Begin(job, roster, index, {}))
  {
    hide StrayInv, Identity;
    BeginInv(job, roster, index, {});
  }

  // The dispatch loop goes on although its passes no longer change anything.
  ghost predicate Spins(job: Job, s: Sup, sent: bool)
    requires JobOk(job)
  {
    && CanDispatch(s)
    && var u := Dispatch(job, s, sent);
       CanDispatch(u) && Dispatch(job, u, sent) == u
  }

  // With more than four workers for each task of a batch the run is there: whatever the box, failed
  // sends alone bring the dispatch loop to a state in which it spins although a worker is left.
  lemma SpinIsReached(job: Job, roster: seq<Worker>, index: map<Worker, nat>, sent: bool) returns (es: seq<Event>)
    requires JobOk(job) && job.tcp && StartOk(roster, index) && |roster| > 4 * job.batch
    ensures AllFail(es) && Legal(job, Begin(job, roster, index, {}), es)
    ensures var s := Run(job, Begin(job, roster, index, {}), es);
            s.messages == 0 && Spins(job, s, sent)
  {
    hide Barren, Dispatch, Pick, Identity, Run, Legal, StartOk;
    BarrenStart(job, roster, index);
    es := SpinFrom(job, Begin(job, roster, index, {}), Audit(0, map[]));
    DispatchSpins(job, Run(job, Begin(job, roster, index, {}), es), sent);
  }

  // One failed send with a worker left: the run goes on without an error and can no longer succeed.
  lemma OneFailedSend(job: Job, roster: seq<Worker>, index: map<Worker, nat>)
    requires JobOk(job) && job.tcp && StartOk(roster, index) && |roster| >= 2
    ensures var s0 := Begin(job, roster, index, {});
            && Legal(job, s0, [Pass(false)]) && LostTasks(job, s0, false) > 0
            && var s := Run(job, s0, [Pass(false)]);
               && CanDispatch(s) && |s.roster| == |roster| - 1 && s.failed == {}
               && !exists es :: Completes(job, s, es)
  {
    hide StrayInv, Dispatch, Pick, Identity, StartOk, LostTasks;
    var s0 := Begin(job, roster, index, {});
    BarrenStart(job, roster, index);
    var b := BarrenPass(job, s0, Audit(0, map[]));
    assert [Pass(false)][1..] == [];
    NoCompletion(job, Dispatch(job, s0, false), b);
  }

  lemma NoCompletion(job: Job, s: Sup, a: Audit)
    requires SupInv(job, s, a) && JobOk(job) && a.lost > 0
    ensures !exists es :: Completes(job, s, es)
  {
    hide StrayInv, Run, Legal, LoopEnds;
    forall es | Completes(job, s, es) ensures false {
      var b := RunKeeps(job, s, a, es);
      EndedState(job, Run(job, s, es), b);
    }
  }

  // ----- when a step ends the run with an error

  // Giving up a worker ends the run exactly if it was the last one and nobody is waited for.
  lemma LoseEndsIff(job: Job, s: Sup, a: Audit, w: Worker, grace: bool)
    requires SupInv(job, s, a) && !s.error
    ensures Lost(s, w, grace).error <==> !grace && s.index.Keys - {w} == {}
    ensures Lost(s, w, grace).index == s.index - {w}
  {
    hide StrayInv, FailWorker, FailEffect;
    var u := FailWorker(s, w);
    FailWorkerIs(job, s, a, {}, w);
    FailFields(s, w, u);
    FailKeeps(job, s, a, {}, w);
    EmptyRoster(job, u, AfterFailure(a, s, w), {} - Sent(s, w));
    assert u.index.Keys == s.index.Keys - {w};
  }

  lemma EmptyRoster(job: Job, s: Sup, a: Audit, stray: set<Id>)
    requires StrayInv(job, s, a, stray)
    ensures s.roster == [] <==> s.index.Keys == {}
  {
    hide TasksInv, Numbered, Recorded, Covered, Counters, Tallies, Identity;
    if s.roster != [] {
      assert s.roster[0] in ToSet(s.roster);
    }
  }

  lemma NoneLeft(a: set<Worker>, b: set<Worker>)
    ensures a - b == {} <==> a <= b
  {
    if a - b == {} {
      forall w | w in a ensures w in b {
        assert w !in a - b;
      }
    }
  }

  // Removing the marked workers ends the run exactly if there are marks and nobody is left unmarked.
  lemma SweepEndsIff(job: Job, s: Sup, a: Audit, stray: set<Id>)
    requires StrayInv(job, s, a, stray) && !s.error
    ensures Cleanup(s).error <==> s.failed != {} && s.index.Keys <= s.failed
    ensures Cleanup(s).index.Keys == s.index.Keys - s.failed
  {
    hide StrayInv, FailEach, Marked;
    if s.failed != {} {
      var ws := Marked(s.roster, s.failed);
      var u := FailEach(s, ws);
      MarkedIs(s.roster, s.failed);
      FailEachFields(job, s, a, stray, ws);
      var b, rest := FailEachKeeps(job, s, a, stray, ws);
      EmptyRoster(job, u, b, rest);
      forall v ensures v in ToSet(ws) <==> v in s.index && v in s.failed {
        RosterRegistered(job, s, a, stray, v);
      }
      assert s.index.Keys - ToSet(ws) == s.index.Keys - s.failed;
      NoneLeft(s.index.Keys, s.failed);
    } else {
      assert s.index.Keys - {} == s.index.Keys;
    }
  }

  lemma SentPassGoesOn(job: Job, s: Sup, a: Audit, sent: bool)
    requires SupInv(job, s, a) && JobOk(job) && !s.error && s.roster != [] && (sent || PassBatch(job, s) == [])
    ensures !Dispatch(job, s, sent).error
  {
    hide StrayInv, FillInv, Fill, Pick, Cleanup, SendFailed, Dispatch;
    DispatchCases(job, s, sent);
    PickIs(job, s);
    var (c, u) := (Pick(job, s), s.(turn := Pick(job, s).turn));
    Unrelated(job, s, a, {}, u);
    if c.found {
      RosterRegistered(job, s, a, {}, c.worker);
      FillKeeps(job, u, a, c.worker);
      FillParts(job, u, a, Fill(job, u, c.worker), c.worker);
    }
  }

  // A message that the socket does not take ends the run without TCP, and over TCP exactly if nobody is
  // left but its worker and workers already marked.
  lemma LostPassEndsIff(job: Job, s: Sup, a: Audit)
    requires SupInv(job, s, a) && JobOk(job) && !s.error && s.roster != [] && PassBatch(job, s) != []
    ensures Dispatch(job, s, false).error <==> !job.tcp || s.index.Keys <= s.failed + {Pick(job, s).worker}
  {
    hide StrayInv, FillInv, Fill, Pick, Cleanup, SendFailed, Dispatch, QueueIds, Credit;
    DispatchCases(job, s, false);
    PickIs(job, s);
    var (w, u) := (Pick(job, s).worker, s.(turn := Pick(job, s).turn));
    Unrelated(job, s, a, {}, u);
    RosterRegistered(job, s, a, {}, w);
    FillKeeps(job, u, a, w);
    var f := Fill(job, u, w);
    FillParts(job, u, a, f, w);
    SendFailedKeeps(job, u, a, f, w);
    SendFailedMarks(f, w);
    var b := Credit(a, QueueIds(f.batch), w).(lost := a.lost + |f.batch|);
    SweepEndsIff(job, SendFailed(f, w), b, QueueIds(f.batch));
  }

  lemma SendFailedMarks(f: Filled, w: Worker)
    ensures SendFailed(f, w).failed == f.s.failed + {w} && SendFailed(f, w).index == f.s.index
    ensures SendFailed(f, w).error == f.s.error
  {
    hide FailTasks;
  }

  // What ends the run, event by event.
  predicate Ends(job: Job, s: Sup, e: Event)
    requires JobOk(job) && (e.Pass? ==> s.roster != [])
  {
    match e
    case Pass(sent) =>
      !sent && PassBatch(job, s) != [] && (!job.tcp || s.index.Keys <= s.failed + {Pick(job, s).worker})
    case Sweep => s.failed != {} && s.index.Keys <= s.failed
    case GotAck(w, id) => w in s.index && id in s.tasks.running && OwnerName(s.tasks, id) == w && s.messages == 0
    case GotAckB(w, ids) => w in s.index && s.messages == 0
    case Lose(w, grace) => !grace && s.index.Keys - {w} == {}
    case GotReady(_, _) => false
    case GotInitAck(_) => false
    case Abort => true
  }

  lemma StepEndsIff(job: Job, s: Sup, a: Audit, e: Event)
    requires SupInv(job, s, a) && JobOk(job) && Enabled(job, s, e)
    ensures Step(job, s, e).error <==> Ends(job, s, e)
  {
    hide StrayInv, Dispatch, Cleanup, Ack, AckB, Lost, Pick, PassBatch;
    match e
    case Pass(sent) =>
      if sent || PassBatch(job, s) == [] {
        SentPassGoesOn(job, s, a, sent);
      } else {
        LostPassEndsIff(job, s, a);
      }
    case Sweep => SweepEndsIff(job, s, a, {});
    case GotAck(w, id) => AckKeeps(job, s, a, w, id);
    case GotAckB(w, ids) => AckBKeeps(job, s, a, w, ids);
    case Lose(w, grace) => LoseEndsIff(job, s, a, w, grace);
    case _ =>
  }

  // After a worker was given up, a run without a failed send can be completed by any other worker that is
  // not marked.
  lemma LossCompletes(job: Job, s: Sup, a: Audit, flight: map<Worker, Batches>, w: Worker, grace: bool, v: Worker)
      returns (es: seq<Event>)
    requires SupInv(job, s, a) && FlightInv(job, s, flight) && JobOk(job) && !s.error && a.lost == 0
    requires v in s.index && v != w && v !in s.failed
    ensures Completes(job, Lost(s, w, grace), es)
  {
    hide StrayInv, FlightInv, FailWorker, FailEffect, Lost;
    var u := Lost(s, w, grace);
    LoseEndsIff(job, s, a, w, grace);
    LoseKeeps(job, s, a, w, grace);
    FailFlight(job, s, a, {}, flight, w);
    LostLists(job, s, a, w, grace);
    SameFlight(job, FailWorker(s, w), u, flight);
    es := CompletingRun(job, u, AfterFailure(a, s, w), flight, v);
  }

  lemma LostLists(job: Job, s: Sup, a: Audit, w: Worker, grace: bool)
    requires SupInv(job, s, a)
    ensures var (t, u) := (FailWorker(s, w), Lost(s, w, grace));
            && u.index == t.index && u.inFlight == t.inFlight && u.roster == t.roster && u.messages == t.messages
            && u.tasks == t.tasks && u.failed == s.failed - {w} && u.joining == s.joining
  {
    hide StrayInv, FailWorker, FailEffect;
    FailWorkerIs(job, s, a, {}, w);
    FailFields(s, w, FailWorker(s, w));
  }

  // Even the last worker may go with a SHUTDOWN over TCP: a worker that joins afterwards completes the run.
  lemma RejoinCompletes(job: Job, s: Sup, a: Audit, flight: map<Worker, Batches>, w: Worker, v: Worker, i: nat)
      returns (es: seq<Event>)
    requires SupInv(job, s, a) && FlightInv(job, s, flight) && JobOk(job) && job.tcp && !s.error && a.lost == 0
    requires v == Identity(i) && v !in s.index && v !in s.joining && v !in s.failed
    ensures Completes(job, Lost(s, w, true), [GotReady(v, i), GotInitAck(v)] + es)
  {
    hide StrayInv, FlightInv, FailWorker, FailEffect, Lost, Identity, Ready, InitAck;
    var u := Lost(s, w, true);
    LoseEndsIff(job, s, a, w, true);
    LoseKeeps(job, s, a, w, true);
    FailFlight(job, s, a, {}, flight, w);
    LostLists(job, s, a, w, true);
    SameFlight(job, FailWorker(s, w), u, flight);
    var b := AfterFailure(a, s, w);
    var x := Ready(u, v, i);
    ReadyIs(u, v, i);
    ReadyKeeps(job, u, b, v, i);
    SameFlight(job, u, x, flight);
    InitAckKeeps(job, x, b, v);
    JoinFlight(job, x, b, flight, v);
    InitAckIs(x, v);
    es := CompletingRun(job, InitAck(x, v), b, flight - {v}, v);
    CompletesMore(job, x, GotInitAck(v), es);
    CompletesMore(job, u, GotReady(v, i), [GotInitAck(v)] + es);
    assert [GotReady(v, i)] + ([GotInitAck(v)] + es) == [GotReady(v, i), GotInitAck(v)] + es;
  }

  lemma CompletesMore(job: Job, s: Sup, e: Event, es: seq<Event>)
    requires JobOk(job) && Enabled(job, s, e) && Completes(job, Step(job, s, e), es)
    ensures Completes(job, s, [e] + es)
  {
    hide Step, Enabled, LoopEnds, JobOk;
    assert ([e] + es)[0] == e && ([e] + es)[1..] == es;
  }

  // ----- late workers

  // READY makes a worker that is neither registered nor expected an expected one.
  lemma ReadyIs(s: Sup, w: Worker, i: nat)
    ensures var u := Ready(s, w, i);
            && u == s.(joining := u.joining)
            && (w !in s.index && w !in s.joining ==> u.joining == s.joining[w := i])
            && (w in s.index || w in s.joining ==> u.joining == s.joining)
  {
  }

  // The answer to INIT puts an expected worker at the end of the roster, under the index it was given.
  lemma InitAckIs(s: Sup, w: Worker)
    ensures var u := InitAck(s, w);
            && (w !in s.joining ==> u == s)
            && (w in s.joining && w !in s.index ==>
                  u == s.(roster := s.roster + [w], index := s.index[w := s.joining[w]], joining := s.joining - {w}))
  {
  }
}

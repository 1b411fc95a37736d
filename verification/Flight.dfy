// Messages in flight: which tasks of a registered worker belong to which unanswered message. Workers
// answer each message once, in order and as a whole; that is what the worker loop does (module Workers).
module Flight {
  import opened Collections
  import opened TaskState
  import opened Odometer
  import opened Supervisor
  import opened SupervisorInvariant
  import opened SupervisorSteps
  import opened SupervisorDispatch
  import opened SupervisorRuns

  type Batches = seq<seq<Id>>

  function FlightOf(flight: map<Worker, Batches>, w: Worker): Batches { if w in flight then flight[w] else [] }

  function Flat(f: Batches): seq<Id> { if f == [] then [] else f[0] + Flat(f[1..]) }

  ghost predicate Sizes(job: Job, f: Batches) { forall k :: 0 <= k < |f| ==> 1 <= |f[k]| <= job.batch }

  // The unanswered messages of one worker carry exactly the tasks it owns, each once.
  ghost predicate OneFlight(job: Job, owned: set<Id>, unanswered: nat, f: Batches) {
    && Distinct(Flat(f)) && ToSet(Flat(f)) == owned
    && |f| == unanswered && Sizes(job, f)
    && (job.tcp ==> |f| <= job.cap)
  }

  function SumOf(m: map<Worker, nat>, ws: seq<Worker>): nat {
    if ws == [] then 0 else (if ws[0] in m then m[ws[0]] else 0) + SumOf(m, ws[1..])
  }

  ghost predicate FlightInv(job: Job, s: Sup, flight: map<Worker, Batches>) {
    && Flights(job, s, flight)
    && s.inFlight.Keys <= s.index.Keys && s.messages == SumOf(s.inFlight, s.roster)
  }

  ghost predicate Flights(job: Job, s: Sup, flight: map<Worker, Batches>) {
    forall w :: w in s.index ==> OneFlight(job, OwnedBy(s.tasks, w), Unanswered(s, w), FlightOf(flight, w))
  }

  // Nothing is in flight to a worker that could not be told the definition.
  ghost predicate Unsent(job: Job, failed: set<Worker>, index: map<Worker, nat>, flight: map<Worker, Batches>) {
    && (!job.tcp ==> failed == {})
    && (forall w :: w in failed && w in index ==> FlightOf(flight, w) == [])
  }

  // ----- sums over the roster

  lemma {:induction false} SumUpdate(m: map<Worker, nat>, m': map<Worker, nat>, ws: seq<Worker>, w: Worker)
    requires Distinct(ws) && m' - {w} == m - {w}
    ensures w !in ws ==> SumOf(m', ws) == SumOf(m, ws)
    ensures w in ws ==> SumOf(m', ws) + Lookup(m, w, 0) == SumOf(m, ws) + Lookup(m', w, 0)
  {
    if ws != [] {
      DistinctTail(ws);
      SumUpdate(m, m', ws[1..], w);
      if ws[0] != w {
        SameEntry(m, m', w, ws[0]);
      }
    }
  }

  lemma SameEntry(m: map<Worker, nat>, m': map<Worker, nat>, w: Worker, v: Worker)
    requires m' - {w} == m - {w} && v != w
    ensures (v in m' <==> v in m) && (v in m ==> m'[v] == m[v])
  {
    assert v in m' - {w} <==> v in m - {w};
    if v in m {
      assert (m' - {w})[v] == m'[v] && (m - {w})[v] == m[v];
    }
  }

  lemma {:induction false} SumRemove(m: map<Worker, nat>, ws: seq<Worker>, w: Worker)
    requires Distinct(ws)
    ensures SumOf(m - {w}, RemoveFirst(ws, w)) + (if w in ws then Lookup(m, w, 0) else 0) == SumOf(m, ws)
  {
    if ws != [] {
      DistinctTail(ws);
      if ws[0] == w {
        SumUpdate(m, m - {w}, ws[1..], w);
      } else {
        SumRemove(m, ws[1..], w);
        RemoveTail(ws, w);
      }
    }
  }

  lemma RemoveTail(ws: seq<Worker>, w: Worker)
    requires ws != [] && ws[0] != w
    ensures RemoveFirst(ws, w)[1..] == RemoveFirst(ws[1..], w) && RemoveFirst(ws, w)[0] == ws[0]
  {
  }

  lemma {:induction false} SumAppend(m: map<Worker, nat>, ws: seq<Worker>, w: Worker)
    requires w !in m
    ensures SumOf(m, ws + [w]) == SumOf(m, ws)
  {
    if ws != [] {
      assert (ws + [w])[1..] == ws[1..] + [w];
      SumAppend(m, ws[1..], w);
    }
  }

  lemma {:induction false} SumAtLeast(m: map<Worker, nat>, ws: seq<Worker>, w: Worker)
    requires w in ws
    ensures SumOf(m, ws) >= Lookup(m, w, 0)
  {
    if ws[0] != w {
      SumAtLeast(m, ws[1..], w);
    }
  }

  // ----- a worker failure

  lemma FailFlightOf(job: Job, s: Sup, a: Audit, stray: set<Id>, flight: map<Worker, Batches>, w: Worker, v: Worker)
    requires StrayInv(job, s, a, stray) && FlightInv(job, s, flight)
    requires v in FailWorker(s, w).index
    ensures OneFlight(job, OwnedBy(FailWorker(s, w).tasks, v), Unanswered(FailWorker(s, w), v), FlightOf(flight, v))
  {
    hide StrayInv, FailWorker, FailEffect, OneFlight, OwnedBy, Unanswered, TasksOf;
    FailWorkerIs(job, s, a, stray, w);
    FailFields(s, w, FailWorker(s, w));
    FailLeavesOthers(job, s, a, stray, w, v);
    assert OneFlight(job, OwnedBy(s.tasks, v), Unanswered(s, v), FlightOf(flight, v));
  }

  lemma FailMessages(job: Job, s: Sup, a: Audit, stray: set<Id>, flight: map<Worker, Batches>, w: Worker)
    requires StrayInv(job, s, a, stray) && FlightInv(job, s, flight)
    ensures FailWorker(s, w).messages == SumOf(FailWorker(s, w).inFlight, FailWorker(s, w).roster)
  {
    hide StrayInv, FailWorker, OneFlight, OwnedBy, TasksOf, Replayed, LiveIn, DoneIn, WithoutIndex, RemoveFirst, SumOf;
    FailWorkerIs(job, s, a, stray, w);
    RosterRegistered(job, s, a, stray, w);
    DistinctRoster(job, s, a, stray);
    SumRemove(s.inFlight, s.roster, w);
  }

  lemma DistinctRoster(job: Job, s: Sup, a: Audit, stray: set<Id>)
    requires StrayInv(job, s, a, stray)
    ensures Distinct(s.roster)
  {
    hide TasksInv, Covered, Recorded, Tallies, Numbered, Identity;
  }

  lemma FailFlight(job: Job, s: Sup, a: Audit, stray: set<Id>, flight: map<Worker, Batches>, w: Worker)
    requires StrayInv(job, s, a, stray) && FlightInv(job, s, flight)
    ensures FlightInv(job, FailWorker(s, w), flight)
  {
    hide StrayInv, FailWorker, FailEffect, OneFlight, OwnedBy, Unanswered, TasksOf, RemoveFirst, SumOf;
    FailWorkerIs(job, s, a, stray, w);
    FailFields(s, w, FailWorker(s, w));
    FailMessages(job, s, a, stray, flight, w);
    forall v | v in FailWorker(s, w).index
      ensures OneFlight(job, OwnedBy(FailWorker(s, w).tasks, v), Unanswered(FailWorker(s, w), v), FlightOf(flight, v))
    {
      FailFlightOf(job, s, a, stray, flight, w, v);
    }
  }

  lemma {:induction false} FailEachFlight(job: Job, s: Sup, a: Audit, stray: set<Id>, flight: map<Worker, Batches>, ws: seq<Worker>)
    requires StrayInv(job, s, a, stray) && FlightInv(job, s, flight)
    ensures FlightInv(job, FailEach(s, ws), flight)
    decreases |ws|
  {
    hide StrayInv, FailWorker, FailEffect, FlightInv;
    if ws != [] {
      FailKeeps(job, s, a, stray, ws[0]);
      FailFlight(job, s, a, stray, flight, ws[0]);
      FailEachFlight(job, FailWorker(s, ws[0]), AfterFailure(a, s, ws[0]), stray - Sent(s, ws[0]), flight, ws[1..]);
    }
  }

  lemma CleanupFlight(job: Job, s: Sup, a: Audit, stray: set<Id>, flight: map<Worker, Batches>)
    requires StrayInv(job, s, a, stray) && FlightInv(job, s, flight)
    ensures FlightInv(job, Cleanup(s), flight)
  {
    hide StrayInv, FailEach, Marked, OneFlight, OwnedBy;
    if s.failed != {} {
      FailEachFlight(job, s, a, stray, flight, Marked(s.roster, s.failed));
    }
  }

  // ----- a dispatch pass

  function Ids(batch: seq<(Id, Payload)>): seq<Id> {
    if batch == [] then [] else [batch[0].0] + Ids(batch[1..])
  }

  // The tasks the pass puts into one message.
  function PassBatch(job: Job, s: Sup): seq<(Id, Payload)>
    requires JobOk(job) && s.roster != []
  {
    var c := Pick(job, s);
    if c.found then Fill(job, s.(turn := c.turn), c.worker).batch else []
  }

  // The messages in flight after a pass; a message the socket did not take is not in flight.
  function AfterPass(job: Job, s: Sup, flight: map<Worker, Batches>, sent: bool): map<Worker, Batches>
    requires JobOk(job) && s.roster != []
  {
    var w := Pick(job, s).worker;
    if sent && PassBatch(job, s) != [] then flight[w := FlightOf(flight, w) + [Ids(PassBatch(job, s))]] else flight
  }

  lemma {:induction false} IdsAre(batch: seq<(Id, Payload)>)
    ensures |Ids(batch)| == |batch| && ToSet(Ids(batch)) == QueueIds(batch)
    ensures forall k :: 0 <= k < |batch| ==> Ids(batch)[k] == batch[k].0
    ensures UniqueIds(batch) ==> Distinct(Ids(batch))
  {
    if batch != [] {
      IdsAre(batch[1..]);
      assert ToSet(Ids(batch)) == {batch[0].0} + ToSet(Ids(batch[1..]));
    }
  }

  lemma {:induction false} FlatSnoc(f: Batches, b: seq<Id>)
    ensures Flat(f + [b]) == Flat(f) + b
  {
    if f == [] {
      assert [b][1..] == [];
    } else {
      assert (f + [b])[1..] == f[1..] + [b];
      FlatSnoc(f[1..], b);
    }
  }

  lemma LoadedOwned(t0: Tasks, t: Tasks, batch: seq<(Id, Payload)>, w: Worker, v: Worker)
    requires TasksInv(t0) && Loaded(t0, t, batch, w)
    ensures OwnedBy(t, v) == OwnedBy(t0, v) + (if v == w then QueueIds(batch) else {})
    ensures OwnedBy(t0, v) !! QueueIds(batch)
  {
    hide QueueIds, UniqueIds, QueueIndexed, Partitioned, PayloadsAgree, Inverse;
  }

  lemma MoreFlight(job: Job, owned: set<Id>, unanswered: nat, f: Batches, batch: seq<(Id, Payload)>)
    requires OneFlight(job, owned, unanswered, f) && UniqueIds(batch) && owned !! QueueIds(batch)
    requires 1 <= |batch| <= job.batch && (job.tcp ==> unanswered < job.cap)
    ensures OneFlight(job, owned + QueueIds(batch), unanswered + 1, f + [Ids(batch)])
  {
    hide Flat, QueueIds, UniqueIds;
    IdsAre(batch);
    FlatSnoc(f, Ids(batch));
    assert ToSet(Flat(f) + Ids(batch)) == ToSet(Flat(f)) + ToSet(Ids(batch));
    forall i, j | 0 <= i < |Flat(f)| && 0 <= j < |batch| ensures Flat(f)[i] != Ids(batch)[j] {
      assert Flat(f)[i] in ToSet(Flat(f)) && Ids(batch)[j] in ToSet(Ids(batch));
    }
  }

  lemma FillFlight(job: Job, s: Sup, a: Audit, flight: map<Worker, Batches>, w: Worker)
    requires SupInv(job, s, a) && FlightInv(job, s, flight) && w in s.index && s.roster != [] && JobOk(job)
    ensures var f := Fill(job, s, w);
            && Untouched(s, f.s) && |f.batch| <= job.batch && UniqueIds(f.batch)
            && (forall v :: OwnedBy(f.s.tasks, v) == OwnedBy(s.tasks, v) + (if v == w then QueueIds(f.batch) else {}))
            && (forall v :: OwnedBy(s.tasks, v) !! QueueIds(f.batch))
  {
    hide StrayInv, Fill, FillInv, OwnedBy, QueueIds, UniqueIds, FlightInv;
    FillKeeps(job, s, a, w);
    var f := Fill(job, s, w);
    FillParts(job, s, a, f, w);
    TasksOfInv(job, s, a);
    forall v
      ensures OwnedBy(f.s.tasks, v) == OwnedBy(s.tasks, v) + (if v == w then QueueIds(f.batch) else {})
      ensures OwnedBy(s.tasks, v) !! QueueIds(f.batch)
    {
      LoadedOwned(s.tasks, f.s.tasks, f.batch, w, v);
    }
    LoadedUnique(s.tasks, f.s.tasks, f.batch, w);
  }

  lemma LoadedUnique(t0: Tasks, t: Tasks, batch: seq<(Id, Payload)>, w: Worker)
    requires Loaded(t0, t, batch, w)
    ensures UniqueIds(batch)
  {
  }

  // The state after a message went out: the worker owns its tasks and owes one more answer.
  function Posted(s: Sup, w: Worker): Sup {
    s.(turn := s.turn + 1, messages := s.messages + 1, inFlight := s.inFlight[w := Unanswered(s, w) + 1])
  }

  lemma PostedFields(s: Sup, f: Sup, w: Worker, v: Worker)
    requires f.inFlight == s.inFlight
    ensures Posted(f, w).tasks == f.tasks
    ensures Unanswered(Posted(f, w), v) == Unanswered(s, v) + (if v == w then 1 else 0)
  {
  }

  lemma PostedOne(job: Job, s: Sup, flight: map<Worker, Batches>, w: Worker, f: Sup, batch: seq<(Id, Payload)>, v: Worker)
    requires OneFlight(job, OwnedBy(s.tasks, v), Unanswered(s, v), FlightOf(flight, v))
    requires f.inFlight == s.inFlight && UniqueIds(batch) && 1 <= |batch| <= job.batch
    requires job.tcp ==> Unanswered(s, w) < job.cap
    requires OwnedBy(f.tasks, v) == OwnedBy(s.tasks, v) + (if v == w then QueueIds(batch) else {})
    requires OwnedBy(s.tasks, v) !! QueueIds(batch)
    ensures OneFlight(job, OwnedBy(Posted(f, w).tasks, v), Unanswered(Posted(f, w), v),
                      FlightOf(flight[w := FlightOf(flight, w) + [Ids(batch)]], v))
  {
    hide OneFlight, OwnedBy, QueueIds, UniqueIds, Posted, Unanswered, Ids;
    PostedFields(s, f, w, v);
    if v == w {
      MoreFlight(job, OwnedBy(s.tasks, w), Unanswered(s, w), FlightOf(flight, w), batch);
    } else {
      assert OwnedBy(s.tasks, v) + {} == OwnedBy(s.tasks, v);
    }
  }

  lemma PostedIndex(f: Sup, w: Worker)
    ensures Posted(f, w).index == f.index
  {
  }

  lemma PostedSum(m: map<Worker, nat>, ws: seq<Worker>, w: Worker)
    requires Distinct(ws) && w in ws
    ensures SumOf(m[w := Lookup(m, w, 0) + 1], ws) == SumOf(m, ws) + 1
  {
    hide SumOf, Distinct;
    SumUpdate(m, m[w := Lookup(m, w, 0) + 1], ws, w);
  }

  lemma PostedFlights(job: Job, s: Sup, flight: map<Worker, Batches>, w: Worker, f: Sup, batch: seq<(Id, Payload)>)
    requires Flights(job, s, flight) && Untouched(s, f) && UniqueIds(batch) && 1 <= |batch| <= job.batch
    requires job.tcp ==> Eligible(job, s, w)
    requires forall v :: OwnedBy(f.tasks, v) == OwnedBy(s.tasks, v) + (if v == w then QueueIds(batch) else {})
    requires forall v :: OwnedBy(s.tasks, v) !! QueueIds(batch)
    ensures Flights(job, Posted(f, w), flight[w := FlightOf(flight, w) + [Ids(batch)]])
  {
    hide OneFlight, OwnedBy, QueueIds, UniqueIds, Flat, Posted, Unanswered, Ids;
    assert Posted(f, w).index == s.index by { PostedIndex(f, w); }
    forall v | v in s.index
      ensures OneFlight(job, OwnedBy(Posted(f, w).tasks, v), Unanswered(Posted(f, w), v),
                        FlightOf(flight[w := FlightOf(flight, w) + [Ids(batch)]], v))
    {
      PostedOne(job, s, flight, w, f, batch, v);
    }
  }

  lemma PostedFlight(job: Job, s: Sup, flight: map<Worker, Batches>, w: Worker, f: Sup, batch: seq<(Id, Payload)>)
    requires FlightInv(job, s, flight) && Distinct(s.roster) && w in s.roster && w in s.index
    requires Untouched(s, f) && UniqueIds(batch) && 1 <= |batch| <= job.batch
    requires job.tcp ==> Eligible(job, s, w)
    requires forall v :: OwnedBy(f.tasks, v) == OwnedBy(s.tasks, v) + (if v == w then QueueIds(batch) else {})
    requires forall v :: OwnedBy(s.tasks, v) !! QueueIds(batch)
    ensures FlightInv(job, Posted(f, w), flight[w := FlightOf(flight, w) + [Ids(batch)]])
  {
    hide OneFlight, OwnedBy, QueueIds, UniqueIds, SumOf, Distinct, Flat, Flights, Unsent;
    hide Posted, Untouched;
    PostedFlights(job, s, flight, w, f, batch);
    PostedBooks(s, f, w);
  }

  lemma PostedBooks(s: Sup, f: Sup, w: Worker)
    requires Untouched(s, f) && Distinct(s.roster) && w in s.roster && w in s.index
    requires s.inFlight.Keys <= s.index.Keys && s.messages == SumOf(s.inFlight, s.roster)
    ensures var u := Posted(f, w); u.inFlight.Keys <= u.index.Keys && u.messages == SumOf(u.inFlight, u.roster)
  {
    hide SumOf, Distinct;
    PostedSum(s.inFlight, s.roster, w);
  }


  lemma SameFlight(job: Job, s: Sup, u: Sup, flight: map<Worker, Batches>)
    requires FlightInv(job, s, flight)
    requires u.index == s.index && u.inFlight == s.inFlight && u.roster == s.roster && u.messages == s.messages
    requires forall v :: OwnedBy(u.tasks, v) == OwnedBy(s.tasks, v)
    ensures FlightInv(job, u, flight)
  {
    hide OneFlight, OwnedBy, SumOf, Flat;
    forall v | v in u.index ensures OneFlight(job, OwnedBy(u.tasks, v), Unanswered(u, v), FlightOf(flight, v)) {
      assert OneFlight(job, OwnedBy(s.tasks, v), Unanswered(s, v), FlightOf(flight, v));
    }
  }

  lemma BackOut(owned: set<Id>, ids: set<Id>)
    requires owned !! ids
    ensures (owned + ids) - ids == owned && (owned + {}) - ids == owned
  {
  }

  lemma FailTasksOwned(t: Tasks, batch: seq<(Id, Payload)>, v: Worker)
    requires TasksInv(t) && QueueIds(batch) <= t.running.Keys
    ensures OwnedBy(FailTasks(t, batch), v) == OwnedBy(t, v) - QueueIds(batch)
  {
    hide FailTasks, TasksInv, QueueIds, OwnedBy;
    FailTasksIs(t, batch);
    OwnedWithout(t, FailTasks(t, batch), QueueIds(batch), v);
  }

  lemma SendFailedOwned(job: Job, s: Sup, a: Audit, f: Filled, w: Worker, v: Worker)
    requires FillInv(job, s, a, f, w) && TasksInv(s.tasks)
    ensures OwnedBy(SendFailed(f, w).tasks, v) == OwnedBy(s.tasks, v)
  {
    hide SupInv, FillInv, FailTasks, TasksInv, Loaded, QueueIds, OwnedBy, Untouched, Pointed, Credit;
    FillParts(job, s, a, f, w);
    TasksOfInv(job, f.s, Credit(a, QueueIds(f.batch), w));
    BatchRuns(s.tasks, f.s.tasks, f.batch, w);
    LoadedOwned(s.tasks, f.s.tasks, f.batch, w, v);
    FailTasksOwned(f.s.tasks, f.batch, v);
    BackOut(OwnedBy(s.tasks, v), QueueIds(f.batch));
  }

  lemma OwnedWithout(t: Tasks, u: Tasks, ids: set<Id>, v: Worker)
    requires u.owner == t.owner - ids
    ensures OwnedBy(u, v) == OwnedBy(t, v) - ids
  {
  }

  // The tasks of a failed send go back at once: nothing is in flight that was not before.
  lemma SendFailedFlight(job: Job, s: Sup, a: Audit, flight: map<Worker, Batches>, f: Filled, w: Worker)
    requires FillInv(job, s, a, f, w) && TasksInv(s.tasks) && FlightInv(job, s, flight)
    ensures FlightInv(job, SendFailed(f, w), flight)
  {
    hide SupInv, FillInv, FlightInv, FailTasks, TasksInv, OwnedBy;
    FillParts(job, s, a, f, w);
    forall v ensures OwnedBy(SendFailed(f, w).tasks, v) == OwnedBy(s.tasks, v) {
      SendFailedOwned(job, s, a, f, w, v);
    }
    SameFlight(job, s, SendFailed(f, w), flight);
  }

  lemma LostPassFlight(job: Job, s: Sup, a: Audit, flight: map<Worker, Batches>, f: Filled, w: Worker)
    requires FillInv(job, s, a, f, w) && TasksInv(s.tasks) && FlightInv(job, s, flight)
    ensures FlightInv(job, Cleanup(SendFailed(f, w)), flight)
  {
    hide StrayInv, FillInv, FlightInv, FailTasks, TasksInv, Cleanup, SendFailed, QueueIds, Credit;
    SendFailedKeeps(job, s, a, f, w);
    SendFailedFlight(job, s, a, flight, f, w);
    CleanupFlight(job, SendFailed(f, w), Credit(a, QueueIds(f.batch), w).(lost := a.lost + |f.batch|),
                  QueueIds(f.batch), flight);
  }

  // What Dispatch computes, case by case, in the terms of this module.
  lemma DispatchCases(job: Job, s: Sup, sent: bool)
    requires JobOk(job) && s.roster != []
    ensures var (u, c) := (s.(turn := Pick(job, s).turn), Pick(job, s));
            && (!c.found ==> Dispatch(job, s, sent) == u)
            && (c.found ==>
                  var f := Fill(job, u, c.worker);
                  Dispatch(job, s, sent) ==
                    if f.s.error || f.batch == [] then f.s
                    else if sent then Posted(f.s, c.worker)
                    else if job.tcp then Cleanup(SendFailed(f, c.worker))
                    else f.s.(error := true))
  {
    hide Pick, Fill, Cleanup, FailTasks;
  }

  lemma PassFlight(job: Job, s: Sup, a: Audit, flight: map<Worker, Batches>, sent: bool)
    requires SupInv(job, s, a) && FlightInv(job, s, flight) && !s.error && s.roster != [] && JobOk(job)
    ensures !Dispatch(job, s, sent).error ==> FlightInv(job, Dispatch(job, s, sent), AfterPass(job, s, flight, sent))
  {
    hide StrayInv, FlightInv, Fill, Pick, Cleanup, Dispatch, OwnedBy, Ids, QueueIds, UniqueIds, SendFailed, Posted;
    DispatchCases(job, s, sent);
    PickIs(job, s);
    var c := Pick(job, s);
    var u := s.(turn := c.turn);
    Unrelated(job, s, a, {}, u);
    SameFlight(job, s, u, flight);
    if c.found {
      RosterRegistered(job, s, a, {}, c.worker);
      DistinctRoster(job, s, a, {});
      TasksOfInv(job, s, a);
      FillKeeps(job, u, a, c.worker);
      FillFlight(job, u, a, flight, c.worker);
      var f := Fill(job, u, c.worker);
      if f.batch == [] {
        NothingLoaded(job, u, flight, c.worker, f);
      } else if sent {
        PostedFlight(job, u, flight, c.worker, f.s, f.batch);
      } else {
        LostPassFlight(job, u, a, flight, f, c.worker);
      }
    }
  }

  lemma NothingLoaded(job: Job, s: Sup, flight: map<Worker, Batches>, w: Worker, f: Filled)
    requires FlightInv(job, s, flight) && Untouched(s, f.s) && f.batch == []
    requires forall v :: OwnedBy(f.s.tasks, v) == OwnedBy(s.tasks, v) + (if v == w then QueueIds(f.batch) else {})
    ensures FlightInv(job, f.s, flight)
  {
    hide FlightInv, OwnedBy;
    assert forall v :: OwnedBy(s.tasks, v) + {} == OwnedBy(s.tasks, v);
    SameFlight(job, s, f.s, flight);
  }

  // ----- answers

  // Single tasks are answered by ACK, batches by ACKB.
  function Answered(s: Sup, w: Worker, ids: seq<Id>): Sup {
    if |ids| == 1 then Ack(s, w, ids[0]) else AckB(s, w, ids)
  }

  // Every task named is finished by its owner; nothing else about the workers changes.
  ghost predicate Settled(s: Sup, w: Worker, ids: set<Id>, u: Sup) {
    && u.tasks.owner == s.tasks.owner - ids && u.tasks.done == s.tasks.done + ids
    && u.history == s.history && u.roster == s.roster && u.index == s.index && u.failed == s.failed
    && u.joining == s.joining && u.error == s.error && u.next == s.next && u.hasMore == s.hasMore
  }

  lemma OwnedAccepted(job: Job, s: Sup, a: Audit, w: Worker, id: Id)
    requires SupInv(job, s, a) && w in s.index && id in OwnedBy(s.tasks, w)
    ensures Accepts(s, w, id)
  {
    hide QueueIndexed, Partitioned, PayloadsAgree, Numbered, Recorded, Covered, Registered, Tallies, Counters;
  }

  lemma TokenSettles(job: Job, s: Sup, a: Audit, w: Worker, id: Id)
    requires SupInv(job, s, a) && !s.error && w in s.index && id in OwnedBy(s.tasks, w)
    ensures var u := AckToken(s, w, id);
            Settled(s, w, {id}, u) && u.inFlight == s.inFlight && u.messages == s.messages
  {
    hide StrayInv, OwnedBy, Done, CountUp;
    OwnedAccepted(job, s, a, w, id);
    FinishKeeps(job, s, a, w, id);
  }

  lemma SettledOwned(s: Sup, w: Worker, ids: set<Id>, u: Sup, v: Worker)
    requires Settled(s, w, ids, u)
    ensures OwnedBy(u.tasks, v) == OwnedBy(s.tasks, v) - ids
  {
  }

  lemma SettledMore(s: Sup, w: Worker, ids: set<Id>, u: Sup, id: Id, v: Sup)
    requires Settled(s, w, ids, u) && Settled(u, w, {id}, v)
    ensures Settled(s, w, ids + {id}, v)
  {
    assert s.tasks.owner - (ids + {id}) == (s.tasks.owner - ids) - {id};
    assert s.tasks.done + (ids + {id}) == (s.tasks.done + ids) + {id};
  }

  lemma {:induction false} TokensSettle(job: Job, s: Sup, a: Audit, w: Worker, ids: seq<Id>)
    requires SupInv(job, s, a) && !s.error && w in s.index && Distinct(ids) && ToSet(ids) <= OwnedBy(s.tasks, w)
    ensures var u := AckTokens(s, w, ids);
            Settled(s, w, ToSet(ids), u) && u.inFlight == s.inFlight && u.messages == s.messages
  {
    hide StrayInv, OwnedBy, AckToken, Settled;
    if ids == [] {
      SettledNone(s, w);
      assert ToSet(ids) == {};
    } else {
      var (init, id) := (ids[..|ids| - 1], ids[|ids| - 1]);
      assert ids == init + [id] && id !in init;
      DistinctAppend(init, id);
      TokensSettle(job, s, a, w, init);
      AckTokensKeep(job, s, a, w, init);
      var u := AckTokens(s, w, init);
      SettledOwned(s, w, ToSet(init), u, w);
      SettledIndex(s, w, ToSet(init), u);
      TokenSettles(job, u, a, w, id);
      SettledMore(s, w, ToSet(init), u, id, AckToken(u, w, id));
    }
  }

  lemma SettledNone(s: Sup, w: Worker)
    ensures Settled(s, w, {}, s)
  {
    assert s.tasks.owner - {} == s.tasks.owner;
  }

  lemma SettledIndex(s: Sup, w: Worker, ids: set<Id>, u: Sup)
    requires Settled(s, w, ids, u)
    ensures u.index == s.index && u.error == s.error && u.roster == s.roster && u.failed == s.failed
  {
  }

  // Nobody answers for nothing: a worker that owes an answer is counted in the messages.
  lemma MessagesOwed(job: Job, s: Sup, a: Audit, flight: map<Worker, Batches>, w: Worker)
    requires SupInv(job, s, a) && FlightInv(job, s, flight) && w in s.index && FlightOf(flight, w) != []
    ensures s.messages > 0 && w in s.inFlight && s.inFlight[w] == |FlightOf(flight, w)|
    ensures w in s.roster && Distinct(s.roster)
  {
    hide StrayInv, OwnedBy, SumOf;
    RosterRegistered(job, s, a, {}, w);
    DistinctRoster(job, s, a, {});
    assert OneFlight(job, OwnedBy(s.tasks, w), Unanswered(s, w), FlightOf(flight, w));
    SumAtLeast(s.inFlight, s.roster, w);
  }

  lemma FirstBatch(job: Job, owned: set<Id>, unanswered: nat, f: Batches)
    requires OneFlight(job, owned, unanswered, f) && f != []
    ensures Distinct(f[0]) && f[0] != [] && ToSet(f[0]) <= owned && unanswered > 0
    ensures OneFlight(job, owned - ToSet(f[0]), unanswered - 1, f[1..])
  {
    var rest := Flat(f[1..]);
    assert Flat(f) == f[0] + rest;
    assert forall i :: 0 <= i < |rest| ==> Flat(f)[|f[0]| + i] == rest[i];
    assert forall i :: 0 <= i < |f[0]| ==> Flat(f)[i] == f[0][i];
    assert ToSet(Flat(f)) == ToSet(f[0]) + ToSet(rest);
    assert ToSet(f[0]) !! ToSet(rest);
    assert forall k :: 0 <= k < |f[1..]| ==> f[1..][k] == f[k + 1];
  }

  ghost predicate AnswerEffect(s: Sup, w: Worker, ids: seq<Id>, u: Sup) {
    && Settled(s, w, ToSet(ids), u)
    && s.messages > 0 && u.messages == s.messages - 1 && u.inFlight == OneLess(s.inFlight, w)
  }

  lemma AckEffect(job: Job, s: Sup, a: Audit, w: Worker, id: Id)
    requires SupInv(job, s, a) && !s.error && s.messages > 0 && w in s.index && id in OwnedBy(s.tasks, w)
    ensures AnswerEffect(s, w, [id], Ack(s, w, id))
  {
    hide StrayInv, OwnedBy, Done, CountUp, OneLess;
    OwnedAccepted(job, s, a, w, id);
    FinishKeeps(job, s, a, w, id);
    assert ToSet([id]) == {id};
  }

  lemma AckBEffect(job: Job, s: Sup, a: Audit, w: Worker, ids: seq<Id>)
    requires SupInv(job, s, a) && !s.error && s.messages > 0 && w in s.index
    requires Distinct(ids) && ToSet(ids) <= OwnedBy(s.tasks, w)
    ensures AnswerEffect(s, w, ids, AckB(s, w, ids))
  {
    hide StrayInv, OwnedBy, AckTokens, OneLess;
    var v := s.(messages := s.messages - 1, inFlight := OneLess(s.inFlight, w));
    Unrelated(job, s, a, {}, v);
    TokensSettle(job, v, a, w, ids);
  }

  // The answer to the oldest message of a registered worker is accepted as a whole: each of its tasks
  // is finished, and neither counter is at zero.
  lemma AnswerAccepted(job: Job, s: Sup, a: Audit, flight: map<Worker, Batches>, w: Worker)
    requires SupInv(job, s, a) && FlightInv(job, s, flight) && !s.error && w in s.index && FlightOf(flight, w) != []
    ensures AnswerEffect(s, w, FlightOf(flight, w)[0], Answered(s, w, FlightOf(flight, w)[0]))
    ensures !Answered(s, w, FlightOf(flight, w)[0]).error
    ensures SupInv(job, Answered(s, w, FlightOf(flight, w)[0]), a)
  {
    hide StrayInv, OwnedBy, Ack, AckB, AnswerEffect, SumOf, Flat, Settled;
    var ids := FlightOf(flight, w)[0];
    MessagesOwed(job, s, a, flight, w);
    assert OneFlight(job, OwnedBy(s.tasks, w), Unanswered(s, w), FlightOf(flight, w));
    FirstBatch(job, OwnedBy(s.tasks, w), Unanswered(s, w), FlightOf(flight, w));
    AckKeeps(job, s, a, w, ids[0]);
    AckBKeeps(job, s, a, w, ids);
    if |ids| == 1 {
      assert ids == [ids[0]] && ids[0] in ToSet(ids);
      AckEffect(job, s, a, w, ids[0]);
    } else {
      AckBEffect(job, s, a, w, ids);
    }
  }

  lemma OneLessIs(m: map<Worker, nat>, w: Worker)
    requires w in m && m[w] > 0
    ensures OneLess(m, w) - {w} == m - {w} && Lookup(OneLess(m, w), w, 0) == m[w] - 1
    ensures OneLess(m, w).Keys <= m.Keys
  {
  }

  lemma AnswerSum(m: map<Worker, nat>, ws: seq<Worker>, w: Worker)
    requires Distinct(ws) && w in ws && w in m && m[w] > 0
    ensures SumOf(OneLess(m, w), ws) == SumOf(m, ws) - 1
  {
    hide OneLess, SumOf, Distinct;
    OneLessIs(m, w);
    SumUpdate(m, OneLess(m, w), ws, w);
  }

  lemma AnsweredUnanswered(s: Sup, u: Sup, w: Worker, v: Worker)
    requires w in s.inFlight && s.inFlight[w] > 0 && u.inFlight == OneLess(s.inFlight, w)
    ensures Unanswered(u, v) == Unanswered(s, v) - (if v == w then 1 else 0)
  {
  }

  lemma AnsweredOwned(s: Sup, w: Worker, ids: set<Id>, u: Sup, v: Worker)
    requires Settled(s, w, ids, u) && ids <= OwnedBy(s.tasks, w) && v != w
    ensures OwnedBy(u.tasks, v) == OwnedBy(s.tasks, v)
  {
    SettledOwned(s, w, ids, u, v);
  }

  lemma AnswerOne(job: Job, s: Sup, flight: map<Worker, Batches>, w: Worker, u: Sup, v: Worker)
    requires FlightOf(flight, w) != [] && AnswerEffect(s, w, FlightOf(flight, w)[0], u) && w in s.inFlight
    requires OneFlight(job, OwnedBy(s.tasks, v), Unanswered(s, v), FlightOf(flight, v))
    requires OneFlight(job, OwnedBy(s.tasks, w), Unanswered(s, w), FlightOf(flight, w))
    ensures OneFlight(job, OwnedBy(u.tasks, v), Unanswered(u, v), FlightOf(flight[w := FlightOf(flight, w)[1..]], v))
  {
    hide OneFlight, OwnedBy, Settled, OneLess, Unanswered;
    var ids := FlightOf(flight, w)[0];
    FirstBatch(job, OwnedBy(s.tasks, w), Unanswered(s, w), FlightOf(flight, w));
    UnansweredIs(s, w);
    AnsweredUnanswered(s, u, w, v);
    if v == w {
      SettledOwned(s, w, ToSet(ids), u, w);
    } else {
      AnsweredOwned(s, w, ToSet(ids), u, v);
    }
  }

  lemma UnansweredIs(s: Sup, w: Worker)
    requires w in s.inFlight
    ensures Unanswered(s, w) == s.inFlight[w]
  {
  }

  lemma AnswerFlight(job: Job, s: Sup, a: Audit, flight: map<Worker, Batches>, w: Worker)
    requires SupInv(job, s, a) && FlightInv(job, s, flight) && !s.error && w in s.index && FlightOf(flight, w) != []
    ensures FlightInv(job, Answered(s, w, FlightOf(flight, w)[0]), flight[w := FlightOf(flight, w)[1..]])
  {
    hide StrayInv, OneFlight, OwnedBy, Answered, Settled, OneLess, SumOf, Flat, Distinct, Unanswered;
    var u := Answered(s, w, FlightOf(flight, w)[0]);
    AnswerAccepted(job, s, a, flight, w);
    MessagesOwed(job, s, a, flight, w);
    SettledIndex(s, w, ToSet(FlightOf(flight, w)[0]), u);
    OneLessIs(s.inFlight, w);
    AnswerSum(s.inFlight, s.roster, w);
    forall v | v in u.index
      ensures OneFlight(job, OwnedBy(u.tasks, v), Unanswered(u, v), FlightOf(flight[w := FlightOf(flight, w)[1..]], v))
    {
      AnswerOne(job, s, flight, w, u, v);
    }
  }

  // ----- joins, failures and a new definition

  lemma NoOwner(job: Job, s: Sup, a: Audit, w: Worker)
    requires SupInv(job, s, a) && w !in s.index
    ensures OwnedBy(s.tasks, w) == {}
  {
    hide QueueIndexed, Partitioned, PayloadsAgree, Numbered, Registered, Counters, Counted, Named;
    forall id | id in s.tasks.owner ensures s.tasks.owner[id] != w {
      assert id in s.tasks.running && a.sentTo[id] in s.history;
    }
  }

  lemma JoinFlight(job: Job, s: Sup, a: Audit, flight: map<Worker, Batches>, w: Worker)
    requires SupInv(job, s, a) && FlightInv(job, s, flight) && w in s.joining
    ensures w !in s.index && FlightInv(job, InitAck(s, w), flight - {w})
  {
    hide StrayInv, OwnedBy, SumOf;
    JoiningApart(job, s, a, w);
    NoOwner(job, s, a, w);
    SumAppend(s.inFlight, s.roster, w);
    var u := InitAck(s, w);
    forall v | v in u.index ensures OneFlight(job, OwnedBy(u.tasks, v), Unanswered(u, v), FlightOf(flight - {w}, v)) {
      if v != w {
        assert OneFlight(job, OwnedBy(s.tasks, v), Unanswered(s, v), FlightOf(flight, v));
      }
    }
  }

  lemma JoiningApart(job: Job, s: Sup, a: Audit, w: Worker)
    requires SupInv(job, s, a) && w in s.joining
    ensures w !in s.index
  {
    hide TasksInv, Numbered, Recorded, Covered, Counters, Counted, Named, Identity;
  }

  lemma {:induction false} SumEmpty(ws: seq<Worker>)
    ensures SumOf(map[], ws) == 0
  {
    if ws != [] {
      SumEmpty(ws[1..]);
    }
  }

  lemma BeginFlight(job: Job, roster: seq<Worker>, index: map<Worker, nat>, unreachable: set<Worker>)
    ensures FlightInv(job, Begin(job, roster, index, unreachable), map[])
  {
    SumEmpty(roster);
  }

  // ----- how many tasks can be outstanding

  lemma {:induction false} FlatLength(job: Job, f: Batches)
    requires Sizes(job, f)
    ensures |Flat(f)| <= |f| * job.batch
  {
    if f != [] {
      assert Sizes(job, f[1..]) by {
        assert forall k :: 0 <= k < |f[1..]| ==> f[1..][k] == f[k + 1];
      }
      FlatLength(job, f[1..]);
    }
  }

  // A worker owns at most as many tasks as its unanswered messages can carry.
  lemma OwnedBound(job: Job, owned: set<Id>, unanswered: nat, f: Batches)
    requires OneFlight(job, owned, unanswered, f)
    ensures |owned| <= unanswered * job.batch
  {
    FlatLength(job, f);
    DistinctCard(Flat(f));
  }

  function OwnedByAny(t: Tasks, ws: seq<Worker>): set<Id> {
    if ws == [] then {} else OwnedBy(t, ws[0]) + OwnedByAny(t, ws[1..])
  }

  lemma {:induction false} OwnedByAnyIs(t: Tasks, ws: seq<Worker>, id: Id)
    requires id in t.owner && t.owner[id] in ws
    ensures id in OwnedByAny(t, ws)
  {
    if t.owner[id] != ws[0] {
      OwnedByAnyIs(t, ws[1..], id);
    }
  }

  lemma {:induction false} OwnedSum(job: Job, s: Sup, flight: map<Worker, Batches>, ws: seq<Worker>)
    requires Flights(job, s, flight) && forall k :: 0 <= k < |ws| ==> ws[k] in s.index
    ensures |OwnedByAny(s.tasks, ws)| <= SumOf(s.inFlight, ws) * job.batch
  {
    hide OneFlight, OwnedBy;
    if ws != [] {
      assert forall k :: 0 <= k < |ws[1..]| ==> ws[1..][k] == ws[k + 1];
      OwnedSum(job, s, flight, ws[1..]);
      var (w, rest) := (ws[0], SumOf(s.inFlight, ws[1..]));
      assert w in s.index;
      OwnedBound(job, OwnedBy(s.tasks, w), Unanswered(s, w), FlightOf(flight, w));
      UnionAtMost(OwnedBy(s.tasks, w), OwnedByAny(s.tasks, ws[1..]));
      SumTimes(Unanswered(s, w), rest, job.batch);
    }
  }

  lemma SumTimes(a: nat, b: nat, n: nat)
    ensures (a + b) * n == a * n + b * n
  {
  }

  lemma UnionAtMost(a: set<Id>, b: set<Id>)
    ensures |a + b| <= |a| + |b|
  {
    assert a + b == a + (b - a);
    SubsetCard(b - a, b);
  }

  // Without failed sends the tasks outstanding are at most those the messages in flight can carry.
  lemma OutstandingBound(job: Job, s: Sup, a: Audit, flight: map<Worker, Batches>)
    requires SupInv(job, s, a) && FlightInv(job, s, flight)
    ensures |s.tasks.running| <= s.messages * job.batch
  {
    hide TasksInv, Numbered, Registered, Counters, Counted, Named, OneFlight, SumOf, Flights, OwnedByAny;
    forall w | w in s.index ensures w in s.roster { RosterRegistered(job, s, a, {}, w); }
    forall k | 0 <= k < |s.roster| ensures s.roster[k] in s.index { RosterRegistered(job, s, a, {}, s.roster[k]); }
    OwnedSum(job, s, flight, s.roster);
    forall id | id in s.tasks.running ensures id in OwnedByAny(s.tasks, s.roster) {
      assert s.tasks.owner[id] in s.history;
      OwnedByAnyIs(s.tasks, s.roster, id);
    }
    SubsetCard(s.tasks.running.Keys, OwnedByAny(s.tasks, s.roster));
    assert |s.tasks.running| == |s.tasks.running.Keys|;
  }

  // So a pass of the dispatch loop either finds no worker that may take a message, and leaves the loop,
  // or loads at least one task: the loop never spins while sends succeed.
  lemma PassMakesProgress(job: Job, s: Sup, a: Audit, flight: map<Worker, Batches>)
    requires SupInv(job, s, a) && FlightInv(job, s, flight) && JobOk(job) && CanDispatch(s) && a.lost == 0
    ensures Pick(job, s).found ==> PassBatch(job, s) != []
    ensures Pick(job, s).found ==> Dispatch(job, s, true).messages == s.messages + 1 && !Dispatch(job, s, true).error
  {
    hide StrayInv, FlightInv, Fill, Pick, FillInv, Cleanup, Dispatch, SendFailed;
    OutstandingBound(job, s, a, flight);
    BelowLimit(s.messages, MaxMessages(s), job.batch);
    TasksOfInv(job, s, a);
    DispatchCases(job, s, true);
    PickIs(job, s);
    var c := Pick(job, s);
    var u := s.(turn := c.turn);
    Unrelated(job, s, a, {}, u);
    if c.found {
      RosterRegistered(job, s, a, {}, c.worker);
      FillKeeps(job, u, a, c.worker);
      FillParts(job, u, a, Fill(job, u, c.worker), c.worker);
    }
  }

  lemma BelowLimit(m: nat, limit: nat, batch: nat)
    requires m < limit && batch >= 1
    ensures m * batch < limit * batch
  {
  }
}

// What each message does to the supervisor, and that turns which answer what was sent bring the main loop
// to its end.
module MainLoopTheorems {
  import opened Collections
  import opened TaskState
  import opened Odometer
  import opened Supervisor
  import opened SupervisorInvariant
  import opened SupervisorSteps
  import opened SupervisorDispatch
  import opened SupervisorRuns
  import opened SupervisorProgress
  import opened Flight
  import opened Completion
  import opened MainLoop

  // ----- results

  // The tasks got are finished by the worker, and both counters move by their number.
  ghost predicate Counted(s: Sup, got: set<Id>, u: Sup) {
    && u.tasks.done == s.tasks.done + got && u.tasks.running == s.tasks.running - got
    && u.tasks.queue == s.tasks.queue && u.tasks.pending == s.tasks.pending
    && |got| <= s.outstanding && u.outstanding == s.outstanding - |got| && u.acked == s.acked + |got|
    && u.error == s.error && u.history == s.history
    && u.roster == s.roster && u.index == s.index && u.failed == s.failed && u.joining == s.joining
    && u.next == s.next && u.hasMore == s.hasMore && u.turn == s.turn
  }

  lemma OneCounted(job: Job, s: Sup, a: Audit, w: Worker, id: Id)
    requires SupInv(job, s, a) && w in s.index && id in OwnedBy(s.tasks, w)
    ensures Accepts(s, w, id) && s.outstanding > 0
    ensures Counted(s, {id}, Finish(s, w, id).(outstanding := s.outstanding - 1, acked := s.acked + 1))
    ensures OwnedBy(Finish(s, w, id).tasks, w) == OwnedBy(s.tasks, w) - {id}
  {
    hide StrayInv, Finish;
    OwnedAccepted(job, s, a, w, id);
    FinishKeeps(job, s, a, w, id);
    FinishMoves(s, w, id);
    OwnedWithout(s.tasks, Finish(s, w, id).tasks, {id}, w);
  }

  lemma FinishMoves(s: Sup, w: Worker, id: Id)
    requires Accepts(s, w, id)
    ensures var u := Finish(s, w, id);
            && u == s.(tasks := u.tasks, counts := u.counts)
            && u.tasks.done == s.tasks.done + {id} && u.tasks.running == s.tasks.running - {id}
            && u.tasks.queue == s.tasks.queue && u.tasks.pending == s.tasks.pending
            && u.tasks.owner == s.tasks.owner - {id}
  {
    hide CountUp, DropFromWorker;
  }

  // A single ACK is taken for a task that its sender owns as running, and for nothing else.
  lemma AckHeard(job: Job, s: Sup, a: Audit, w: Worker, id: Id)
    requires SupInv(job, s, a) && !s.error
    ensures var (u, taken) := (Hear(job, s, AckFrom(w, id)), w in s.index && id in OwnedBy(s.tasks, w));
            && (!taken ==> u == s)
            && (taken && s.messages == 0 ==> u.error)
            && (taken && s.messages > 0 ==>
                  Counted(s, {id}, u) && u.messages == s.messages - 1
                  && Unanswered(u, w) == Below(Unanswered(s, w), 1))
  {
    hide StrayInv, Finish, Counted;
    if w in s.index && id in OwnedBy(s.tasks, w) {
      OneCounted(job, s, a, w, id);
      FinishMoves(s, w, id);
      if s.messages > 0 {
        var v := Finish(s, w, id).(outstanding := s.outstanding - 1, acked := s.acked + 1);
        CountedMessages(s, {id}, v, Hear(job, s, AckFrom(w, id)));
      }
    } else {
      NotAccepted(job, s, a, w, id);
    }
  }

  lemma NotAccepted(job: Job, s: Sup, a: Audit, w: Worker, id: Id)
    requires SupInv(job, s, a) && !(w in s.index && id in OwnedBy(s.tasks, w))
    ensures !Accepts(s, w, id)
  {
    hide QueueIndexed, Partitioned, PayloadsAgree, Numbered, Recorded, Registered, Tallies, Counters;
  }

  lemma CountedMessages(s: Sup, got: set<Id>, v: Sup, u: Sup)
    requires Counted(s, got, v) && u == v.(messages := u.messages, inFlight := u.inFlight)
    ensures Counted(s, got, u)
  {
  }

  // The tokens of a batch answer: exactly those the sender owns are taken, whatever else it names.
  lemma {:induction false} TokensCounted(job: Job, s: Sup, a: Audit, w: Worker, ids: seq<Id>)
    requires SupInv(job, s, a) && !s.error && w in s.index
    ensures var (u, got) := (AckTokens(s, w, ids), ToSet(ids) * OwnedBy(s.tasks, w));
            && Counted(s, got, u) && u.messages == s.messages && u.inFlight == s.inFlight
            && OwnedBy(u.tasks, w) == OwnedBy(s.tasks, w) - got
  {
    hide StrayInv, OwnedBy, AckToken, Counted;
    if ids == [] {
      NothingCounted(s);
      assert ToSet(ids) * OwnedBy(s.tasks, w) == {};
    } else {
      var (init, id) := (ids[..|ids| - 1], ids[|ids| - 1]);
      TokensCounted(job, s, a, w, init);
      AckTokensKeep(job, s, a, w, init);
      var (u, got) := (AckTokens(s, w, init), ToSet(init) * OwnedBy(s.tasks, w));
      CountedIndex(s, got, u);
      OneToken(job, u, a, w, id);
      assert ids == init + [id];
      assert ToSet(ids) == ToSet(init) + {id};
      assert ToSet(ids) * OwnedBy(s.tasks, w) == got + ({id} * OwnedBy(u.tasks, w));
      CountedMore(s, got, u, {id} * OwnedBy(u.tasks, w), AckToken(u, w, id));
    }
  }

  lemma NothingCounted(s: Sup)
    ensures Counted(s, {}, s)
  {
    assert s.tasks.running - {} == s.tasks.running;
  }

  lemma CountedIndex(s: Sup, got: set<Id>, u: Sup)
    requires Counted(s, got, u)
    ensures u.index == s.index && u.error == s.error
  {
  }

  lemma OneToken(job: Job, s: Sup, a: Audit, w: Worker, id: Id)
    requires SupInv(job, s, a) && !s.error && w in s.index
    ensures var (u, got) := (AckToken(s, w, id), {id} * OwnedBy(s.tasks, w));
            && Counted(s, got, u) && u.messages == s.messages && u.inFlight == s.inFlight
            && OwnedBy(u.tasks, w) == OwnedBy(s.tasks, w) - got
  {
    hide StrayInv, Finish, Counted, OwnedBy;
    if id in OwnedBy(s.tasks, w) {
      assert {id} * OwnedBy(s.tasks, w) == {id};
      OneCounted(job, s, a, w, id);
      FinishMoves(s, w, id);
    } else {
      assert {id} * OwnedBy(s.tasks, w) == {};
      NotAccepted(job, s, a, w, id);
      NothingCounted(s);
    }
  }

  lemma CountedMore(s: Sup, got: set<Id>, u: Sup, more: set<Id>, v: Sup)
    requires Counted(s, got, u) && Counted(u, more, v) && got !! more
    ensures Counted(s, got + more, v)
  {
    assert s.tasks.running - (got + more) == (s.tasks.running - got) - more;
    assert |got + more| == |got| + |more|;
  }

  // A batch answer of a registered worker takes one message off and finishes exactly the tasks it owns.
  lemma AckBHeard(job: Job, s: Sup, a: Audit, w: Worker, ids: seq<Id>)
    requires SupInv(job, s, a) && !s.error
    ensures var (u, got) := (Hear(job, s, AckBFrom(w, ids)), ToSet(ids) * OwnedBy(s.tasks, w));
            && (w !in s.index ==> u == s)
            && (w in s.index && s.messages == 0 ==> u.error)
            && (w in s.index && s.messages > 0 ==>
                  Counted(s, got, u) && u.messages == s.messages - 1
                  && Unanswered(u, w) == Below(Unanswered(s, w), 1))
  {
    hide StrayInv, OwnedBy, AckTokens, Counted;
    if w in s.index && s.messages > 0 {
      var v := s.(messages := s.messages - 1, inFlight := OneLess(s.inFlight, w));
      Unrelated(job, s, a, {}, v);
      TokensCounted(job, v, a, w, ids);
      CountedFrom(s, ToSet(ids) * OwnedBy(s.tasks, w), v, AckTokens(v, w, ids));
    }
  }

  lemma CountedFrom(s: Sup, got: set<Id>, v: Sup, u: Sup)
    requires Counted(v, got, u) && v == s.(messages := v.messages, inFlight := v.inFlight)
    ensures Counted(s, got, u)
  {
  }

  // ----- workers that go and come

  // A SHUTDOWN takes its worker off; it ends the run only without TCP and for the last worker.
  lemma ShutdownHeard(job: Job, s: Sup, a: Audit, w: Worker)
    requires SupInv(job, s, a) && !s.error
    ensures var u := Hear(job, s, ShutdownOf(w));
            u.index == s.index - {w} && (u.error <==> !job.tcp && s.index.Keys - {w} == {})
  {
    hide StrayInv, Lost;
    LoseEndsIff(job, s, a, w, job.tcp);
  }

  function Skipping(ws: seq<Worker>, marked: set<Worker>): seq<Worker> {
    if ws == [] then [] else (if ws[0] in marked then [] else [ws[0]]) + Skipping(ws[1..], marked)
  }

  lemma {:induction false} SkippingIs(ws: seq<Worker>, marked: set<Worker>)
    ensures forall w :: w in Skipping(ws, marked) <==> w in ws && w !in marked
  {
    if ws != [] {
      SkippingIs(ws[1..], marked);
      assert forall w :: w in ws <==> w == ws[0] || w in ws[1..];
    }
  }

  // Giving up workers one after the other ends the run exactly if nobody is left; otherwise just they go.
  lemma {:induction false} LoseAllIs(job: Job, s: Sup, a: Audit, ws: seq<Worker>, skipMarked: bool) returns (b: Audit)
    requires SupInv(job, s, a) && !s.error
    ensures var (u, gone) := (LoseAll(s, ws, skipMarked), Skipping(ws, if skipMarked then s.failed else {}));
            && (u.error <==> gone != [] && s.index.Keys <= ToSet(gone))
            && (!u.error ==> SupInv(job, u, b) && b.lost == a.lost && u.index.Keys == s.index.Keys - ToSet(gone))
    decreases |ws|
  {
    hide StrayInv, Lost;
    b := a;
    var marked := if skipMarked then s.failed else {};
    if ws == [] {
      assert s.index.Keys - ToSet(Skipping(ws, marked)) == s.index.Keys;
    } else if skipMarked && ws[0] in s.failed {
      b := LoseAllIs(job, s, a, ws[1..], skipMarked);
    } else {
      var (w, u) := (ws[0], Lost(s, ws[0], false));
      LoseEndsIff(job, s, a, w, false);
      LoseKeeps(job, s, a, w, false);
      LostMarks(job, s, a, w);
      var rest := Skipping(ws[1..], marked);
      GoneMore(s.index.Keys, w, rest);
      SkipSame(ws[1..], marked, w);
      if !u.error {
        assert u.index.Keys == s.index.Keys - {w};
        b := LoseAllIs(job, u, AfterFailure(a, s, w), ws[1..], skipMarked);
        assert skipMarked ==> u.failed == s.failed;
      }
    }
  }

  lemma LostMarks(job: Job, s: Sup, a: Audit, w: Worker)
    requires SupInv(job, s, a)
    ensures Lost(s, w, false).failed == s.failed - {w}
    ensures w !in s.failed ==> Lost(s, w, false).failed == s.failed
  {
    hide StrayInv, FailWorker, FailEffect;
    FailWorkerIs(job, s, a, {}, w);
    FailFields(s, w, FailWorker(s, w));
  }

  lemma SkipSame(ws: seq<Worker>, marked: set<Worker>, w: Worker)
    requires w !in marked
    ensures Skipping(ws, marked - {w}) == Skipping(ws, marked)
  {
    assert marked - {w} == marked;
  }

  lemma GoneMore(keys: set<Worker>, w: Worker, rest: seq<Worker>)
    ensures keys - ToSet([w] + rest) == (keys - {w}) - ToSet(rest)
    ensures keys - {w} == {} ==> keys <= ToSet([w] + rest)
    ensures rest != [] ==> (keys - {w} <= ToSet(rest) <==> keys <= ToSet([w] + rest))
    ensures rest == [] ==> (keys <= ToSet([w] + rest) <==> keys - {w} == {})
  {
    assert ToSet([w] + rest) == {w} + ToSet(rest);
    LeftOver(keys, {w}, ToSet(rest));
    NoneLeft(keys, {w});
    assert rest == [] ==> ToSet([w] + rest) == {w};
  }

  // When nothing is received, the silent workers that are not marked and those that have exited are gone;
  // the run ends exactly if that leaves nobody, or if it is broken off.
  lemma SilenceHeard(job: Job, s: Sup, a: Audit, inactive: seq<Worker>, exited: seq<Worker>, broken: bool)
    requires SupInv(job, s, a) && !s.error
    ensures var u := Hear(job, s, Silence(inactive, exited, broken));
            var silent := if job.tcp then Skipping(inactive, s.failed) else [];
            && (u.error <==> broken || (silent != [] && s.index.Keys <= ToSet(silent))
                             || (exited != [] && s.index.Keys <= ToSet(silent) + ToSet(exited)))
            && (!u.error ==> u.index.Keys == s.index.Keys - ToSet(silent) - ToSet(exited))
  {
    hide StrayInv, LoseAll;
    var silent := if job.tcp then Skipping(inactive, s.failed) else [];
    var u, b := s, a;
    if job.tcp {
      b := LoseAllIs(job, s, a, inactive, true);
      u := LoseAll(s, inactive, true);
    }
    assert u == Detected(job, s, inactive);
    SkipNone(exited);
    if !u.error {
      assert u.index.Keys == s.index.Keys - ToSet(silent);
      var c := LoseAllIs(job, u, b, exited, false);
      LeftOver(s.index.Keys, ToSet(silent), ToSet(exited));
    } else {
      ErrorStays(u, exited, false);
    }
  }

  lemma LeftOver(a: set<Worker>, b: set<Worker>, c: set<Worker>)
    ensures a - b <= c <==> a <= b + c
  {
    if a <= b + c {
      forall w | w in a - b ensures w in c {
      }
    }
    if a - b <= c {
      forall w | w in a ensures w in b + c {
        assert w in b || w in a - b;
      }
    }
  }

  lemma ErrorStays(s: Sup, ws: seq<Worker>, skipMarked: bool)
    requires s.error
    ensures LoseAll(s, ws, skipMarked) == s
  {
  }

  lemma {:induction false} SkipNone(ws: seq<Worker>)
    ensures Skipping(ws, {}) == ws
  {
    if ws != [] {
      SkipNone(ws[1..]);
    }
  }

  // READY over TCP makes its sender an expected worker, unless it is one already; without TCP it ends the run.
  lemma ReadyHeard(job: Job, s: Sup, w: Worker, i: nat)
    ensures var u := Hear(job, s, ReadyFrom(w, i));
            && (!job.tcp ==> u.error)
            && (job.tcp && w == Identity(i) && w !in s.index && w !in s.joining ==> u == s.(joining := s.joining[w := i]))
            && (job.tcp && (w != Identity(i) || w in s.index || w in s.joining) ==> u == s)
  {
    hide Identity;
  }

  // The answer to INIT puts an expected worker at the end of the roster, under the index it was given.
  lemma InitAckHeard(job: Job, s: Sup, a: Audit, w: Worker)
    requires SupInv(job, s, a)
    ensures var u := Hear(job, s, InitAckFrom(w));
            if job.tcp && w in s.joining
            then u == s.(roster := s.roster + [w], index := s.index[w := s.joining[w]], joining := s.joining - {w})
            else u == s
  {
    hide StrayInv;
    if w in s.joining {
      JoiningApart(job, s, a, w);
    }
  }

  // An error report or a malformed frame ends the run; a frame that does not concern it changes nothing.
  lemma OthersHeard(job: Job, s: Sup)
    ensures Hear(job, s, ErrOrMalformed).error && Hear(job, s, Unconcerning) == s
  {
  }

  // ----- a turn

  // A turn goes on to its dispatch loop unless it is interrupted or nobody is left; over TCP a rejoin is waited
  // for, unless the last worker has just fallen silent or the time for it is over.
  lemma CheckEndsIff(job: Job, s: Sup, a: Audit, t: Turn)
    requires SupInv(job, s, a) && JobOk(job) && !s.error
    ensures var u := Checked(job, s, t);
            var silent := if job.tcp then Skipping(t.inactive, s.failed) else [];
            && (u.error <==> t.interrupted || (s.index.Keys <= ToSet(silent) && (silent != [] || !job.tcp || t.graceOver)))
            && (!u.error ==> u.index.Keys == s.index.Keys - ToSet(silent))
            && (u.error ==> TurnStep(job, s, t) == u)
  {
    hide StrayInv, LoseAll, SentOut, Hear, JobOk, LoopEnds;
    var silent := if job.tcp then Skipping(t.inactive, s.failed) else [];
    var d, b := s, a;
    if job.tcp {
      b := LoseAllIs(job, s, a, t.inactive, true);
      d := LoseAll(s, t.inactive, true);
    }
    assert d == Detected(job, s, t.inactive);
    if !d.error {
      EmptyRoster(job, d, b, {});
      NoneLeft(s.index.Keys, ToSet(silent));
    }
  }

  // After the dispatch loop of a turn over TCP no registered worker is marked.
  lemma NobodyMarked(job: Job, s: Sup, a: Audit, sends: seq<bool>)
    requires SupInv(job, s, a) && JobOk(job) && job.tcp && !s.error
    ensures var u := SentOut(job, s, sends); !u.error ==> forall v :: v in u.index ==> v !in u.failed
  {
    hide SupInv, PassAll, Cleanup, Reaches, JobOk;
    var u := PassAll(job, s, sends);
    var es := PassAllReaches(job, s, sends);
    if !u.error {
      ReachesIs(job, s, es, u);
      var b := RunKeeps(job, s, a, es);
      CleanupClears(job, u, b);
    }
  }

  lemma ReachesIs(job: Job, s: Sup, es: seq<Event>, u: Sup)
    requires Reaches(job, s, es, u)
    ensures JobOk(job) && Legal(job, s, es) && Run(job, s, es) == u
  {
    hide JobOk, Legal, Run;
  }

  lemma CleanupClears(job: Job, s: Sup, a: Audit)
    requires SupInv(job, s, a) && !s.error
    ensures forall v :: v in Cleanup(s).index ==> v !in Cleanup(s).failed
  {
    hide StrayInv, FailEach, Marked;
    SweepEndsIff(job, s, a, {});
    if s.failed != {} {
      FailEachFields(job, s, a, {}, Marked(s.roster, s.failed));
    }
  }

  // ----- the dispatch loop of a turn in which every message goes out

  predicate AllOut(sends: seq<bool>) { forall k :: 0 <= k < |sends| ==> sends[k] }

  // The messages in flight after the dispatch loop.
  ghost function PassAllFlight(job: Job, s: Sup, flight: map<Worker, Batches>, sends: seq<bool>): map<Worker, Batches>
    requires JobOk(job)
    decreases |sends|
  {
    if sends == [] || !CanDispatch(s) then flight
    else
      var (u, f) := (Dispatch(job, s, sends[0]), AfterPass(job, s, flight, sends[0]));
      if u.error || Leaves(job, s, sends[0]) then f else PassAllFlight(job, u, f, sends[1..])
  }

  // The books are in order, no send has failed, one registered worker may take messages, and those that may
  // not have never had any.
  ghost predicate Healthy(job: Job, s: Sup, a: Audit, flight: map<Worker, Batches>, w: Worker) {
    && SupInv(job, s, a) && FlightInv(job, s, flight) && JobOk(job) && !s.error && a.lost == 0
    && w in s.index && w !in s.failed && (!job.tcp ==> s.failed == {}) && Unused(s)
  }

  ghost predicate Unused(s: Sup) { forall v :: v in s.failed && v in s.index ==> Sent(s, v) == {} }

  lemma HealthyIs(job: Job, s: Sup, a: Audit, flight: map<Worker, Batches>, w: Worker)
    requires Healthy(job, s, a, flight, w)
    ensures SupInv(job, s, a) && FlightInv(job, s, flight) && JobOk(job) && !s.error && a.lost == 0
    ensures w in s.index && w !in s.failed && (!job.tcp ==> s.failed == {}) && Unused(s) && s.roster != []
  {
    hide StrayInv, FlightInv, JobOk, Unused;
    RosterRegistered(job, s, a, {}, w);
  }

  lemma {:induction false} QueuedElsewhere(f: Filled, w: Worker, limit: nat, room: nat, v: Worker)
    requires v != w
    ensures Sent(TakeQueued(f, w, limit, room).s, v) == Sent(f.s, v)
    decreases room
  {
    hide Claim;
    if room > 0 && f.s.tasks.queue != [] && f.s.outstanding < limit {
      QueuedElsewhere(Filled(ClaimFor(f.s, w), f.batch + [f.s.tasks.queue[0]]), w, limit, room - 1, v);
    }
  }

  lemma {:induction false} NewElsewhere(job: Job, f: Filled, w: Worker, limit: nat, room: nat, v: Worker)
    requires JobOk(job) && v != w
    ensures Sent(TakeNew(job, f, w, limit, room).s, v) == Sent(f.s, v)
    decreases room
  {
    hide ClaimFor, Fresh, Exists, JobOk;
    if room > 0 && f.s.hasMore && f.s.outstanding < limit && !Exists(f.s.tasks, f.s.next) {
      var u := Fresh(job, f.s);
      FreshElsewhere(job, f.s, w, v);
      NewElsewhere(job, Filled(ClaimFor(u, w), f.batch + [u.tasks.queue[0]]), w, limit, room - 1, v);
    }
  }

  lemma FreshElsewhere(job: Job, s: Sup, w: Worker, v: Worker)
    requires JobOk(job) && v != w && !Exists(s.tasks, s.next)
    ensures var u := Fresh(job, s); u.tasks.queue != [] && Sent(ClaimFor(u, w), v) == Sent(s, v)
  {
    hide Claim, JobOk, Point, TotalTasks;
  }

  // A sent message enters no history but that of the worker picked.
  lemma OthersUnsent(job: Job, s: Sup, v: Worker)
    requires JobOk(job) && s.roster != [] && (Pick(job, s).found ==> v != Pick(job, s).worker)
    ensures Sent(Dispatch(job, s, true), v) == Sent(s, v)
  {
    hide Pick, Cleanup, TakeQueued, TakeNew, BatchSize, ReplayShare, TasksOf;
    DispatchCases(job, s, true);
    var (c, u) := (Pick(job, s), s.(turn := Pick(job, s).turn));
    if c.found {
      var (limit, size) := (MaxMessages(u) * job.batch, BatchSize(job, u));
      QueuedElsewhere(Filled(u, []), c.worker, limit, Min(size, ReplayShare(job, u)), v);
      var f := TakeQueued(Filled(u, []), c.worker, limit, Min(size, ReplayShare(job, u)));
      NewElsewhere(job, f, c.worker, limit, if |f.batch| < size then size - |f.batch| else 0, v);
    }
  }

  // One message that goes out leaves the supervisor healthy and finishes nothing.
  lemma HealthyPass(job: Job, s: Sup, a: Audit, flight: map<Worker, Batches>, w: Worker) returns (b: Audit)
    requires Healthy(job, s, a, flight, w) && CanDispatch(s)
    ensures var (u, f) := (Dispatch(job, s, true), AfterPass(job, s, flight, true));
            && Healthy(job, u, b, f, w) && u.tasks.done == s.tasks.done && u.index == s.index
            && u.roster == s.roster && u.failed == s.failed
            && (Pick(job, s).found ==> u.messages == s.messages + 1)
            && (!Pick(job, s).found ==> u.messages == s.messages && !Pick(job, u).found)
  {
    hide StrayInv, FlightInv, Dispatch, Pick, PassBatch, AfterPass, JobOk, Sent;
    HealthyIs(job, s, a, flight, w);
    SentPassGoesOn(job, s, a, true);
    b := DispatchKeeps(job, s, a, true);
    PassFlight(job, s, a, flight, true);
    SentPass(job, s, a);
    PassRoster(job, s, a);
    PickIs(job, s);
    if Pick(job, s).found {
      PassMakesProgress(job, s, a, flight);
    } else {
      NobodyFound(job, s);
    }
    var u := Dispatch(job, s, true);
    forall v | v in u.failed && v in u.index ensures Sent(u, v) == {} {
      OthersUnsent(job, s, v);
    }
  }

  lemma PassRoster(job: Job, s: Sup, a: Audit)
    requires SupInv(job, s, a) && JobOk(job) && s.roster != []
    ensures Dispatch(job, s, true).roster == s.roster
  {
    hide StrayInv, FillInv, Fill, Pick, Cleanup, Dispatch, SendFailed;
    DispatchCases(job, s, true);
    PickIs(job, s);
    var (c, u) := (Pick(job, s), s.(turn := Pick(job, s).turn));
    Unrelated(job, s, a, {}, u);
    if c.found {
      RosterRegistered(job, s, a, {}, c.worker);
      FillKeeps(job, u, a, c.worker);
      FillParts(job, u, a, Fill(job, u, c.worker), c.worker);
    }
  }

  lemma NobodyFound(job: Job, s: Sup)
    requires JobOk(job) && s.roster != [] && !Pick(job, s).found
    ensures var u := Dispatch(job, s, true); u == s.(turn := u.turn) && !Pick(job, u).found
  {
    hide Pick, Fill, Search, Eligible;
    var u := Dispatch(job, s, true);
    PickIs(job, s);
    PickIs(job, u);
    forall w | w in s.roster ensures Eligible(job, u, w) == Eligible(job, s, w) {
      SameEligible(job, s, u, w);
    }
    NonTcpFinds(job, s);
  }

  lemma SameEligible(job: Job, s: Sup, u: Sup, w: Worker)
    requires u == s.(turn := u.turn)
    ensures Eligible(job, u, w) == Eligible(job, s, w)
  {
  }

  lemma NonTcpFinds(job: Job, s: Sup)
    requires s.roster != []
    ensures !job.tcp ==> Pick(job, s).found
  {
  }

  // With enough messages going out the dispatch loop ends by itself: nothing may be sent any more, or
  // nobody may take it.
  lemma {:induction false} HealthyPasses(job: Job, s: Sup, a: Audit, flight: map<Worker, Batches>, w: Worker, sends: seq<bool>)
      returns (b: Audit)
    requires Healthy(job, s, a, flight, w) && AllOut(sends)
    ensures JobOk(job)
    ensures var (u, f) := (PassAll(job, s, sends), PassAllFlight(job, s, flight, sends));
            && Healthy(job, u, b, f, w) && u.tasks.done == s.tasks.done && u.failed == s.failed
            && u.roster == s.roster && u.messages <= Max(s.messages, MaxMessages(s))
            && (|sends| >= Below(MaxMessages(s), s.messages) ==> !CanDispatch(u) || !Pick(job, u).found)
    decreases |sends|
  {
    hide SupInv, FlightInv, Unused, Healthy, Dispatch, Pick, PassBatch, AfterPass, JobOk, CanDispatch, PassAll, PassAllFlight, MaxMessages;
    HealthyIs(job, s, a, flight, w);
    b := a;
    PassAllStep(job, s, flight, sends);
    if sends != [] && CanDispatch(s) {
      var (u, f) := (Dispatch(job, s, true), AfterPass(job, s, flight, true));
      b := HealthyPass(job, s, a, flight, w);
      HealthyIs(job, u, b, f, w);
      if Pick(job, s).found {
        b := HealthyPasses(job, u, b, f, w, sends[1..]);
        SameLimit(s, u);
      }
    } else {
      MayNotSend(s);
    }
  }

  // The dispatch loop fills up what may be in flight, and no more: at its end there is nothing left to send, or
  // as many messages are unanswered as there are workers, and at least four, or every worker that is not
  // marked has as many unanswered messages as it may have.
  lemma LoopFillsUp(job: Job, s: Sup, a: Audit, flight: map<Worker, Batches>, w: Worker, sends: seq<bool>)
    requires Healthy(job, s, a, flight, w) && AllOut(sends) && 4 <= |sends| && |s.roster| <= |sends|
    ensures JobOk(job)
    ensures var u := PassAll(job, s, sends);
            && (u.messages <= s.messages || u.messages <= 4 || u.messages <= |u.roster|)
            && ((!u.hasMore && u.tasks.queue == [])
                || (4 <= u.messages && |u.roster| <= u.messages)
                || (job.tcp && forall v :: v in u.roster ==> v in u.failed || Unanswered(u, v) >= job.cap))
  {
    hide SupInv, FlightInv, Unused, Healthy, Pick, JobOk, PassAll, PassAllFlight;
    var b := HealthyPasses(job, s, a, flight, w, sends);
    var u := PassAll(job, s, sends);
    HealthyIs(job, u, b, PassAllFlight(job, s, flight, sends), w);
    PickIs(job, u);
    NonTcpFinds(job, u);
  }

  lemma PassAllStep(job: Job, s: Sup, flight: map<Worker, Batches>, sends: seq<bool>)
    requires JobOk(job) && AllOut(sends) && !s.error
    ensures sends == [] || !CanDispatch(s) ==> PassAll(job, s, sends) == s && PassAllFlight(job, s, flight, sends) == flight
    ensures sends != [] && CanDispatch(s) ==>
              && AllOut(sends[1..])
              && var (u, f) := (Dispatch(job, s, true), AfterPass(job, s, flight, true));
                 if u.error || !Pick(job, s).found
                 then PassAll(job, s, sends) == u && PassAllFlight(job, s, flight, sends) == f
                 else PassAll(job, s, sends) == PassAll(job, u, sends[1..])
                      && PassAllFlight(job, s, flight, sends) == PassAllFlight(job, u, f, sends[1..])
  {
    hide Dispatch, Pick, PassBatch, AfterPass, JobOk, CanDispatch;
    if sends != [] {
      assert sends[0];
    }
  }

  lemma SameLimit(s: Sup, u: Sup)
    requires u.roster == s.roster && u.messages == s.messages + 1 && CanDispatch(s)
    ensures Below(MaxMessages(u), u.messages) + 1 == Below(MaxMessages(s), s.messages)
  {
  }

  lemma MayNotSend(s: Sup)
    ensures Below(MaxMessages(s), s.messages) == 0 ==> !CanDispatch(s)
  {
  }

  // ----- removing the marked workers

  lemma {:induction false} UnusedGo(job: Job, s: Sup, a: Audit, ws: seq<Worker>)
    requires SupInv(job, s, a) && (forall v :: v in ws ==> Sent(s, v) == {})
    ensures FailEach(s, ws).tasks.done == s.tasks.done
    decreases |ws|
  {
    hide StrayInv, FailWorker, FailEffect, TasksOf;
    if ws != [] {
      var u := FailWorker(s, ws[0]);
      FailWorkerIs(job, s, a, {}, ws[0]);
      FailFields(s, ws[0], u);
      FailKeeps(job, s, a, {}, ws[0]);
      assert {} - Sent(s, ws[0]) == {};
      forall v | v in ws[1..] ensures Sent(u, v) == {} {
        assert v in ws;
        FewerSent(s, u, ws[0], v);
      }
      UnusedGo(job, u, AfterFailure(a, s, ws[0]), ws[1..]);
    }
  }

  lemma FewerSent(s: Sup, u: Sup, w: Worker, v: Worker)
    requires u.history == s.history - {w} && Sent(s, v) == {}
    ensures Sent(u, v) == {}
  {
  }

  lemma HealthySweep(job: Job, s: Sup, a: Audit, flight: map<Worker, Batches>, w: Worker) returns (b: Audit)
    requires Healthy(job, s, a, flight, w)
    ensures var u := Cleanup(s);
            Healthy(job, u, b, flight, w) && u.tasks.done == s.tasks.done && u.index.Keys == s.index.Keys - s.failed
  {
    hide StrayInv, FlightInv, FailEach, Marked, JobOk, TasksOf;
    HealthyIs(job, s, a, flight, w);
    SweepEndsIff(job, s, a, {});
    b := CleanupKeeps(job, s, a, {});
    CleanupFlight(job, s, a, {}, flight);
    var ws := Marked(s.roster, s.failed);
    MarkedIs(s.roster, s.failed);
    forall v | v in ws ensures Sent(s, v) == {} {
      RosterRegistered(job, s, a, {}, v);
    }
    UnusedGo(job, s, a, ws);
    FailEachFields(job, s, a, {}, ws);
  }

  lemma HealthySentOut(job: Job, s: Sup, a: Audit, flight: map<Worker, Batches>, w: Worker, sends: seq<bool>) returns (b: Audit)
    requires Healthy(job, s, a, flight, w) && AllOut(sends) && |sends| >= MaxMessages(s)
    ensures JobOk(job)
    ensures var (v, f) := (SentOut(job, s, sends), PassAllFlight(job, s, flight, sends));
            && Healthy(job, v, b, f, w) && v.tasks.done == s.tasks.done
            && (LoopEnds(v) || exists x :: x in v.index && FlightOf(f, x) != [])
  {
    hide SupInv, FlightInv, Unused, Healthy, PassAll, PassAllFlight, Cleanup, CanDispatch, Pick, LoopEnds, JobOk;
    b := HealthyPasses(job, s, a, flight, w, sends);
    var (u, f) := (PassAll(job, s, sends), PassAllFlight(job, s, flight, sends));
    HealthyIs(job, u, b, f, w);
    var c := b;
    if job.tcp {
      c := HealthySweep(job, u, b, f, w);
      HealthyIs(job, Cleanup(u), c, f, w);
    }
    if LoopEnds(u) {
      EndedState(job, u, b);
      StaysEnded(job, u, b, SentOut(job, s, sends), c);
    } else {
      var x := SomebodyOwes(job, u, b, f, w);
      NotMarked(job, u, b, f, w, x);
      assert x in SentOut(job, s, sends).index;
    }
    b := c;
  }

  // When every task is finished the loop ends.
  lemma AllDoneEnds(job: Job, s: Sup, a: Audit)
    requires SupInv(job, s, a) && JobOk(job) && a.lost == 0 && |s.tasks.done| >= TotalTasks(job)
    ensures LoopEnds(s)
  {
    hide Recorded, Covered, Registered, Tallies, OwnersInverse, PayloadsAgree, UniqueIds, Point, Volume;
    RangeCard(s.tasks.payloads.Keys, s.next);
    SubsetCard(s.tasks.done, s.tasks.payloads.Keys);
    assert s.tasks.done == s.tasks.payloads.Keys;
    assert s.tasks.pending == {} && s.tasks.running.Keys == {};
    assert |s.tasks.running| == |s.tasks.running.Keys|;
    QueueGone(s.tasks);
  }

  lemma QueueGone(t: Tasks)
    requires QueueIndexed(t) && t.pending == {}
    ensures t.queue == []
  {
  }

  lemma StaysEnded(job: Job, s: Sup, a: Audit, u: Sup, b: Audit)
    requires SupInv(job, s, a) && LoopEnds(s) && SupInv(job, u, b) && JobOk(job) && b.lost == 0 && u.tasks.done == s.tasks.done
    ensures LoopEnds(u)
  {
    hide StrayInv, LoopEnds, TotalTasks;
    EndedState(job, s, a);
    DoneWithin(job, s, a, {});
    AllDoneEnds(job, u, b);
  }

  // A dispatch loop that has ended by itself before the work is done leaves an answer to come.
  lemma SomebodyOwes(job: Job, s: Sup, a: Audit, flight: map<Worker, Batches>, w: Worker) returns (x: Worker)
    requires Healthy(job, s, a, flight, w) && !LoopEnds(s) && (!CanDispatch(s) || !Pick(job, s).found)
    ensures x in s.index && FlightOf(flight, x) != []
  {
    hide SupInv, FlightInv, Unused, Healthy, CanDispatch, Pick, LoopEnds, JobOk;
    HealthyIs(job, s, a, flight, w);
    if v :| v in s.index && FlightOf(flight, v) != [] {
      x := v;
    } else {
      CanContinue(job, s, a, flight, w);
      assert false;
    }
  }

  // A worker that owes an answer is not marked.
  lemma NotMarked(job: Job, s: Sup, a: Audit, flight: map<Worker, Batches>, w: Worker, x: Worker)
    requires Healthy(job, s, a, flight, w) && x in s.index && FlightOf(flight, x) != []
    ensures x !in s.failed
  {
    hide StrayInv, OwnedBy, SumOf, Flat, Sent;
    assert OneFlight(job, OwnedBy(s.tasks, x), Unanswered(s, x), FlightOf(flight, x));
    FirstBatch(job, OwnedBy(s.tasks, x), Unanswered(s, x), FlightOf(flight, x));
    var id := FlightOf(flight, x)[0][0];
    assert id in OwnedBy(s.tasks, x);
    OwnedIsSent(job, s, a, x, id);
  }

  lemma OwnedIsSent(job: Job, s: Sup, a: Audit, x: Worker, id: Id)
    requires SupInv(job, s, a) && id in OwnedBy(s.tasks, x)
    ensures id in Sent(s, x)
  {
    hide QueueIndexed, Partitioned, PayloadsAgree, Numbered, Registered, Tallies, Counters;
    assert id in s.tasks.running && a.sentTo[id] == x;
  }

  // ----- turns that answer

  function AnswerFrom(w: Worker, ids: seq<Id>): Incoming { if |ids| == 1 then AckFrom(w, ids[0]) else AckBFrom(w, ids) }

  // In each turn every message goes out, nobody is silent, and the worker named answers its oldest message.
  ghost predicate Answering(job: Job, s: Sup, flight: map<Worker, Batches>, turns: seq<Turn>, who: seq<Worker>)
    requires JobOk(job) && |who| == |turns|
    decreases |turns|
  {
    turns == [] || !Going(s) ||
    var (t, w) := (turns[0], who[0]);
    var (v, f) := (SentOut(job, s, t.sends), PassAllFlight(job, s, flight, t.sends));
    && !t.interrupted && t.inactive == [] && AllOut(t.sends) && |t.sends| >= MaxMessages(s)
    && (LoopEnds(v) ||
        (w in v.index && FlightOf(f, w) != [] && t.incoming == AnswerFrom(w, FlightOf(f, w)[0])
         && Answering(job, TurnStep(job, s, t), f[w := FlightOf(f, w)[1..]], turns[1..], who[1..])))
  }

  lemma TurnIs(job: Job, s: Sup, t: Turn)
    requires JobOk(job) && !s.error && s.roster != [] && !t.interrupted && t.inactive == []
    ensures var v := SentOut(job, s, t.sends);
            && (!v.error && LoopEnds(v) ==> TurnStep(job, s, t) == v)
            && (!v.error && !LoopEnds(v) && v.roster != [] ==> TurnStep(job, s, t) == Hear(job, v, t.incoming))
  {
    hide SentOut, Hear, LoopEnds;
    assert LoseAll(s, [], true) == s;
  }

  lemma HearAnswers(job: Job, s: Sup, w: Worker, ids: seq<Id>)
    ensures Hear(job, s, AnswerFrom(w, ids)) == Answered(s, w, ids)
  {
    hide Ack, AckB;
  }

  lemma HealthyAnswer(job: Job, s: Sup, a: Audit, flight: map<Worker, Batches>, w: Worker, x: Worker)
    requires Healthy(job, s, a, flight, w) && x in s.index && FlightOf(flight, x) != []
    ensures var u := Answered(s, x, FlightOf(flight, x)[0]);
            Healthy(job, u, a, flight[x := FlightOf(flight, x)[1..]], w) && |u.tasks.done| > |s.tasks.done|
  {
    hide StrayInv, FlightInv, Answered, AnswerEffect, JobOk;
    AnswerAccepted(job, s, a, flight, x);
    AnswerFlight(job, s, a, flight, x);
    AnswerGrows(job, s, a, flight, x);
    AnswerHistory(s, x, FlightOf(flight, x)[0]);
  }

  lemma AnswerHistory(s: Sup, w: Worker, ids: seq<Id>)
    requires AnswerEffect(s, w, ids, Answered(s, w, ids))
    ensures Answered(s, w, ids).history == s.history && Answered(s, w, ids).failed == s.failed
    ensures Answered(s, w, ids).index == s.index
  {
    hide Answered;
  }

  // As many answering turns as there are unfinished tasks bring the loop to its end without an error.
  lemma {:induction false} AnsweringFinishes(job: Job, s: Sup, a: Audit, flight: map<Worker, Batches>, w: Worker,
                                             turns: seq<Turn>, who: seq<Worker>)
    requires Healthy(job, s, a, flight, w) && JobOk(job) && |who| == |turns|
    requires Answering(job, s, flight, turns, who) && |turns| + |s.tasks.done| >= TotalTasks(job)
    ensures !Play(job, s, turns).error && LoopEnds(Play(job, s, turns))
    decreases |turns|
  {
    hide SupInv, FlightInv, Unused, Healthy, SentOut, PassAllFlight, TurnStep, LoopEnds, Answered, AnswerFrom, TotalTasks;
    hide JobOk, Hear, Answering, Play;
    HealthyIs(job, s, a, flight, w);
    PlayStep(job, s, turns);
    if LoopEnds(s) {
    } else if turns == [] {
      AllDoneEnds(job, s, a);
    } else {
      AnsweringStep(job, s, flight, turns, who);
      var t := turns[0];
      var (v, f) := (SentOut(job, s, t.sends), PassAllFlight(job, s, flight, t.sends));
      var b := HealthySentOut(job, s, a, flight, w, t.sends);
      HealthyIs(job, v, b, f, w);
      TurnIs(job, s, t);
      if LoopEnds(v) {
        PlayEnded(job, v, turns[1..]);
      } else {
        var ids := FlightOf(f, who[0])[0];
        HearAnswers(job, v, who[0], ids);
        HealthyAnswer(job, v, b, f, w, who[0]);
        AnsweringFinishes(job, Answered(v, who[0], ids), b, f[who[0] := FlightOf(f, who[0])[1..]], w, turns[1..], who[1..]);
      }
    }
  }

  lemma PlayStep(job: Job, s: Sup, turns: seq<Turn>)
    requires JobOk(job) && !s.error
    ensures Play(job, s, turns) == if turns == [] || LoopEnds(s) then s else Play(job, TurnStep(job, s, turns[0]), turns[1..])
  {
    hide TurnStep, LoopEnds, JobOk;
  }

  lemma AnsweringStep(job: Job, s: Sup, flight: map<Worker, Batches>, turns: seq<Turn>, who: seq<Worker>)
    requires JobOk(job) && |who| == |turns| > 0 && !s.error && !LoopEnds(s)
    ensures var (t, w) := (turns[0], who[0]);
            var (v, f) := (SentOut(job, s, t.sends), PassAllFlight(job, s, flight, t.sends));
            Answering(job, s, flight, turns, who) <==>
              && !t.interrupted && t.inactive == [] && AllOut(t.sends) && |t.sends| >= MaxMessages(s)
              && (LoopEnds(v) ||
                  (w in v.index && FlightOf(f, w) != [] && t.incoming == AnswerFrom(w, FlightOf(f, w)[0])
                   && Answering(job, TurnStep(job, s, t), f[w := FlightOf(f, w)[1..]], turns[1..], who[1..])))
  {
    hide TurnStep, LoopEnds, JobOk, SentOut, PassAllFlight, AnswerFrom, AllOut, MaxMessages;
  }

  lemma PlayEnded(job: Job, s: Sup, turns: seq<Turn>)
    requires JobOk(job) && LoopEnds(s)
    ensures Play(job, s, turns) == s
  {
  }

  function Yes(n: nat): seq<bool> { seq(n, i => true) }

  // Such turns always exist: in each some worker owes an answer.
  lemma {:induction false} AnsweringTurns(job: Job, s: Sup, a: Audit, flight: map<Worker, Batches>, w: Worker, n: nat)
      returns (turns: seq<Turn>, who: seq<Worker>)
    requires Healthy(job, s, a, flight, w) && JobOk(job)
    ensures |turns| == |who| == n && Answering(job, s, flight, turns, who)
    decreases n
  {
    hide SupInv, FlightInv, Unused, Healthy, SentOut, PassAllFlight, TurnStep, LoopEnds, Answered, AnswerFrom, JobOk, Hear, Answering;
    if n == 0 || LoopEnds(s) {
      turns, who := seq(n, i => Turn(false, [], false, [], Unconcerning)), seq(n, i => w);
      NoMoreTurns(job, s, flight, turns, who);
      return;
    }
    HealthyIs(job, s, a, flight, w);
    var sends := Yes(MaxMessages(s));
    var (v, f) := (SentOut(job, s, sends), PassAllFlight(job, s, flight, sends));
    var b := HealthySentOut(job, s, a, flight, w, sends);
    HealthyIs(job, v, b, f, w);
    if LoopEnds(v) {
      turns, who := seq(n, i => Turn(false, [], false, sends, Unconcerning)), seq(n, i => w);
      AnsweringStep(job, s, flight, turns, who);
      return;
    }
    var x :| x in v.index && FlightOf(f, x) != [];
    var ids := FlightOf(f, x)[0];
    var t := Turn(false, [], false, sends, AnswerFrom(x, ids));
    TurnIs(job, s, t);
    HearAnswers(job, v, x, ids);
    HealthyAnswer(job, v, b, f, w, x);
    var ts, ws := AnsweringTurns(job, Answered(v, x, ids), b, f[x := FlightOf(f, x)[1..]], w, n - 1);
    turns, who := [t] + ts, [x] + ws;
    assert turns[1..] == ts && who[1..] == ws;
    AnsweringStep(job, s, flight, turns, who);
  }

  lemma NoMoreTurns(job: Job, s: Sup, flight: map<Worker, Batches>, turns: seq<Turn>, who: seq<Worker>)
    requires JobOk(job) && |who| == |turns| && (turns == [] || LoopEnds(s))
    ensures Answering(job, s, flight, turns, who)
  {
  }

  lemma HealthyStart(job: Job, roster: seq<Worker>, index: map<Worker, nat>, unreachable: set<Worker>, w: Worker)
    requires JobOk(job) && StartOk(roster, index) && w in index && w !in unreachable && (!job.tcp ==> unreachable == {})
    ensures Healthy(job, Begin(job, roster, index, unreachable), Audit(0, map[]), map[], w)
  {
    hide StrayInv, FlightInv, Identity;
    BeginInv(job, roster, index, unreachable);
    BeginFlight(job, roster, index, unreachable);
  }

  // Some worker was told of the definition, and in at least as many turns as there are tasks every message
  // goes out and some worker answers its oldest one.
  ghost predicate AlwaysAnswered(job: Job, roster: seq<Worker>, index: map<Worker, nat>, unreachable: set<Worker>, turns: seq<Turn>)
    requires JobOk(job)
  {
    && (exists w :: w in index && w !in unreachable) && (!job.tcp ==> unreachable == {}) && |turns| >= TotalTasks(job)
    && exists who :: |who| == |turns| && Answering(job, Begin(job, roster, index, unreachable), map[], turns, who)
  }

  // Then the definition is finished.
  lemma AnsweredDefinitionEnds(job: Job, roster: seq<Worker>, index: map<Worker, nat>, unreachable: set<Worker>, turns: seq<Turn>)
    requires JobOk(job) && StartOk(roster, index) && AlwaysAnswered(job, roster, index, unreachable, turns)
    ensures var u := Play(job, Begin(job, roster, index, unreachable), turns); !u.error && LoopEnds(u)
  {
    hide SupInv, FlightInv, Unused, Healthy, Answering, Play, LoopEnds, StartOk, TotalTasks;
    var w :| w in index && w !in unreachable;
    var who :| |who| == |turns| && Answering(job, Begin(job, roster, index, unreachable), map[], turns, who);
    HealthyStart(job, roster, index, unreachable, w);
    AnsweringFinishes(job, Begin(job, roster, index, unreachable), Audit(0, map[]), map[], w, turns, who);
  }

  // Such turns exist from every start with a worker that was told.
  lemma AnswersExist(job: Job, roster: seq<Worker>, index: map<Worker, nat>, unreachable: set<Worker>, w: Worker) returns (turns: seq<Turn>)
    requires JobOk(job) && StartOk(roster, index) && w in index && w !in unreachable && (!job.tcp ==> unreachable == {})
    ensures AlwaysAnswered(job, roster, index, unreachable, turns)
  {
    hide SupInv, FlightInv, Unused, Healthy, Answering, StartOk, TotalTasks;
    HealthyStart(job, roster, index, unreachable, w);
    var who;
    turns, who := AnsweringTurns(job, Begin(job, roster, index, unreachable), Audit(0, map[]), map[], w, TotalTasks(job));
  }
}

// How much work a run can do: accepted acknowledgements against replays, a measure that shrinks, and
// the two ways in which the dispatch loop can fail to make progress.
module SupervisorProgress {
  import opened Collections
  import opened TaskState
  import opened Odometer
  import opened Supervisor
  import opened SupervisorInvariant
  import opened SupervisorSteps
  import opened SupervisorDispatch
  import opened SupervisorRuns

  // ----- accepted acknowledgements of one step

  function AcceptedTokens(s: Sup, w: Worker, ids: seq<Id>): nat {
    if ids == [] then 0
    else
      var (init, id) := (ids[..|ids| - 1], ids[|ids| - 1]);
      AcceptedTokens(s, w, init) + if Accepts(AckTokens(s, w, init), w, id) then 1 else 0
  }

  function Accepted(s: Sup, e: Event): nat {
    match e
    case GotAck(w, id) => if Accepts(s, w, id) then 1 else 0
    case GotAckB(w, ids) =>
      if w !in s.index || s.messages == 0 then 0
      else AcceptedTokens(s.(messages := s.messages - 1, inFlight := OneLess(s.inFlight, w)), w, ids)
    case _ => 0
  }

  lemma FinishDone(job: Job, s: Sup, a: Audit, w: Worker, id: Id)
    requires SupInv(job, s, a) && Accepts(s, w, id)
    ensures |Finish(s, w, id).tasks.done| == |s.tasks.done| + 1
  {
    hide StrayInv, Finish;
    FinishKeeps(job, s, a, w, id);
  }

  lemma {:induction false} TokensAccepted(job: Job, s: Sup, a: Audit, w: Worker, ids: seq<Id>)
    requires SupInv(job, s, a) && !s.error
    ensures |AckTokens(s, w, ids).tasks.done| == |s.tasks.done| + AcceptedTokens(s, w, ids)
  {
    hide StrayInv, Done, CountUp;
    if ids != [] {
      var (init, id) := (ids[..|ids| - 1], ids[|ids| - 1]);
      TokensAccepted(job, s, a, w, init);
      AckTokensKeep(job, s, a, w, init);
      if Accepts(AckTokens(s, w, init), w, id) {
        FinishDone(job, AckTokens(s, w, init), a, w, id);
      }
    }
  }

  // ----- what failures undo

  lemma DoneWithin(job: Job, s: Sup, a: Audit, stray: set<Id>)
    requires StrayInv(job, s, a, stray)
    ensures s.acked == |s.tasks.done| <= TotalTasks(job)
  {
    hide Recorded, Covered, Registered, Tallies, OwnersInverse, PayloadsAgree, QueueIndexed, Point, Volume;
    SubsetCard(s.tasks.done, s.tasks.payloads.Keys);
    RangeCard(s.tasks.payloads.Keys, s.next);
  }

  lemma FailShrinks(job: Job, s: Sup, a: Audit, stray: set<Id>, w: Worker)
    requires StrayInv(job, s, a, stray)
    ensures var u := FailWorker(s, w);
            && u.tasks.done <= s.tasks.done
            && |u.roster| == (if w in s.roster then |s.roster| - 1 else |s.roster|)
            && (w !in s.roster ==> u.tasks.done == s.tasks.done)
  {
    hide FailWorker, FailEffect, Recorded, Covered, Tallies, TasksInv, Numbered, Counters;
    FailWorkerIs(job, s, a, stray, w);
    FailFields(s, w, FailWorker(s, w));
    RosterNames(s.roster, s.index, s.joining, w);
    RemoveFirstIs(s.roster, w);
    NoHistory(s.tasks.done, s.history, s.index, s.counts, w);
  }

  lemma RosterNames(roster: seq<Worker>, index: map<Worker, nat>, joining: map<Worker, nat>, w: Worker)
    requires Registered(roster, index, joining)
    ensures w in roster <==> w in index
    ensures Distinct(roster)
  {
    hide Identity;
    assert w in roster <==> w in ToSet(roster);
  }

  lemma NoHistory(done: set<Id>, history: map<Worker, set<Id>>, index: map<Worker, nat>, counts: map<nat, nat>, w: Worker)
    requires Tallies(done, history, index, counts)
    ensures w !in index ==> TasksOf(history, w) == {}
  {
    hide Counted, Named;
  }

  ghost predicate Shrunk(s: Sup, u: Sup) {
    && u.tasks.done <= s.tasks.done && |u.roster| <= |s.roster|
    && (u.tasks.done != s.tasks.done ==> |u.roster| < |s.roster|)
  }

  lemma {:induction false} FailEachShrinks(job: Job, s: Sup, a: Audit, stray: set<Id>, ws: seq<Worker>)
    requires StrayInv(job, s, a, stray)
    ensures Shrunk(s, FailEach(s, ws))
    decreases |ws|
  {
    hide StrayInv, FailWorker, FailEffect;
    if ws != [] {
      FailKeeps(job, s, a, stray, ws[0]);
      FailShrinks(job, s, a, stray, ws[0]);
      FailEachShrinks(job, FailWorker(s, ws[0]), AfterFailure(a, s, ws[0]), stray - Sent(s, ws[0]), ws[1..]);
    }
  }

  lemma FillLeavesDone(job: Job, s: Sup, a: Audit, w: Worker)
    requires SupInv(job, s, a) && w in s.index && s.roster != [] && JobOk(job)
    ensures var f := Fill(job, s, w); f.s.tasks.done == s.tasks.done && f.s.roster == s.roster
  {
    hide StrayInv, Fill, FillInv, Loaded;
    FillKeeps(job, s, a, w);
    var f := Fill(job, s, w);
    FillParts(job, s, a, f, w);
    BatchRuns(s.tasks, f.s.tasks, f.batch, w);
  }

  lemma LostShrinks(job: Job, s: Sup, a: Audit, f: Filled, w: Worker)
    requires FillInv(job, s, a, f, w)
    ensures Shrunk(s, Cleanup(SendFailed(f, w)))
  {
    hide StrayInv, FillInv, FailTasks, FailEach, Marked, SendFailed;
    var v := SendFailed(f, w);
    SendFailedKeeps(job, s, a, f, w);
    FailEachShrinks(job, v, Credit(a, QueueIds(f.batch), w).(lost := a.lost + |f.batch|), QueueIds(f.batch),
                    Marked(v.roster, v.failed));
    LostBatchDone(job, s, a, f, w);
  }

  lemma DispatchShrinks(job: Job, s: Sup, a: Audit, sent: bool)
    requires SupInv(job, s, a) && !s.error && s.roster != [] && JobOk(job)
    ensures Shrunk(s, Dispatch(job, s, sent))
  {
    hide StrayInv, Fill, FillInv, FailTasks, Pick, Cleanup;
    PickIs(job, s);
    var c := Pick(job, s);
    var u := s.(turn := c.turn);
    Unrelated(job, s, a, {}, u);
    if c.found {
      RosterRegistered(job, s, a, {}, c.worker);
      FillLeavesDone(job, u, a, c.worker);
      FillKeeps(job, u, a, c.worker);
      LostShrinks(job, u, a, Fill(job, u, c.worker), c.worker);
    }
  }

  lemma LostBatchDone(job: Job, s: Sup, a: Audit, f: Filled, w: Worker)
    requires FillInv(job, s, a, f, w)
    ensures SendFailed(f, w).tasks.done == s.tasks.done && SendFailed(f, w).roster == s.roster
  {
    hide FillInv, FailTasks, Loaded, SupInv, QueueIds;
    FillParts(job, s, a, f, w);
    BatchRuns(s.tasks, f.s.tasks, f.batch, w);
    SendFailedTasks(job, s, a, f, w);
  }

  // ----- one step

  function Removed(s: Sup, u: Sup): nat { Below(|s.roster|, |u.roster|) }

  ghost function Undone(s: Sup, u: Sup): nat { |s.tasks.done - u.tasks.done| }

  // A step either accepts acknowledgements or takes workers off and undoes what they had finished.
  ghost predicate Balanced(s: Sup, u: Sup, accepted: nat) {
    && |u.tasks.done| + Undone(s, u) == |s.tasks.done| + accepted
    && (accepted > 0 ==> Undone(s, u) == 0 && u.roster == s.roster)
    && (Undone(s, u) > 0 ==> Removed(s, u) > 0)
  }

  lemma BalancedShrunk(s: Sup, u: Sup)
    requires Shrunk(s, u)
    ensures Balanced(s, u, 0)
  {
    SplitCard(s.tasks.done, u.tasks.done);
  }

  lemma BalancedGrown(s: Sup, u: Sup, n: nat)
    requires s.tasks.done <= u.tasks.done && |u.tasks.done| == |s.tasks.done| + n && (n > 0 ==> u.roster == s.roster)
    ensures Balanced(s, u, n)
  {
    SplitCard(s.tasks.done, u.tasks.done);
  }

  lemma AckBalance(job: Job, s: Sup, a: Audit, w: Worker, id: Id)
    requires SupInv(job, s, a) && !s.error
    ensures Balanced(s, Ack(s, w, id), Accepted(s, GotAck(w, id)))
  {
    hide StrayInv, Balanced, Done, CountUp;
    if Accepts(s, w, id) {
      FinishKeeps(job, s, a, w, id);
    }
    BalancedGrown(s, Ack(s, w, id), Accepted(s, GotAck(w, id)));
  }

  lemma AckBBalance(job: Job, s: Sup, a: Audit, w: Worker, ids: seq<Id>)
    requires SupInv(job, s, a) && !s.error
    ensures Balanced(s, AckB(s, w, ids), Accepted(s, GotAckB(w, ids)))
  {
    hide StrayInv, Balanced, AckTokens, AcceptedTokens;
    if w in s.index && s.messages > 0 {
      var v := s.(messages := s.messages - 1, inFlight := OneLess(s.inFlight, w));
      Unrelated(job, s, a, {}, v);
      TokensAccepted(job, v, a, w, ids);
      TokensGrow(job, v, a, w, ids);
    }
    AckBRoster(s, w, ids);
    BalancedGrown(s, AckB(s, w, ids), Accepted(s, GotAckB(w, ids)));
  }

  lemma LoseBalance(job: Job, s: Sup, a: Audit, w: Worker, grace: bool)
    requires SupInv(job, s, a)
    ensures Balanced(s, Lost(s, w, grace), 0) && |Lost(s, w, grace).roster| <= |s.roster|
  {
    hide StrayInv, Balanced, FailWorker;
    FailShrinks(job, s, a, {}, w);
    BalancedShrunk(s, Lost(s, w, grace));
  }

  lemma SweepShrinks(job: Job, s: Sup, a: Audit)
    requires SupInv(job, s, a)
    ensures Shrunk(s, Cleanup(s))
  {
    hide StrayInv, FailEach, Marked;
    FailEachShrinks(job, s, a, {}, Marked(s.roster, s.failed));
  }

  lemma StepBalance(job: Job, s: Sup, a: Audit, e: Event)
    requires SupInv(job, s, a) && JobOk(job) && Enabled(job, s, e)
    ensures Balanced(s, Step(job, s, e), Accepted(s, e))
    ensures !e.GotInitAck? ==> |Step(job, s, e).roster| <= |s.roster|
  {
    hide StrayInv, Dispatch, Cleanup, Ack, AckB, Lost, Balanced, Shrunk;
    match e
    case Pass(sent) =>
      DispatchShrinks(job, s, a, sent);
      BalancedShrunk(s, Step(job, s, e));
      ShrunkRoster(s, Step(job, s, e));
    case Sweep =>
      SweepShrinks(job, s, a);
      BalancedShrunk(s, Step(job, s, e));
      ShrunkRoster(s, Step(job, s, e));
    case GotAck(w, id) =>
      AckBalance(job, s, a, w, id);
      AckRoster(s, w, id);
    case GotAckB(w, ids) =>
      AckBBalance(job, s, a, w, ids);
      AckBRoster(s, w, ids);
    case Lose(w, grace) => LoseBalance(job, s, a, w, grace);
    case _ => BalancedGrown(s, Step(job, s, e), 0);
  }

  lemma ShrunkRoster(s: Sup, u: Sup)
    requires Shrunk(s, u)
    ensures |u.roster| <= |s.roster|
  {
  }

  lemma AckRoster(s: Sup, w: Worker, id: Id)
    ensures Ack(s, w, id).roster == s.roster
  {
    hide Done, CountUp;
  }

  lemma {:induction false} TokensRoster(s: Sup, w: Worker, ids: seq<Id>)
    ensures AckTokens(s, w, ids).roster == s.roster
  {
    hide Done, CountUp;
    if ids != [] {
      TokensRoster(s, w, ids[..|ids| - 1]);
    }
  }

  lemma AckBRoster(s: Sup, w: Worker, ids: seq<Id>)
    ensures AckB(s, w, ids).roster == s.roster
  {
    hide AckTokens;
    if w in s.index && s.messages > 0 {
      TokensRoster(s.(messages := s.messages - 1, inFlight := OneLess(s.inFlight, w)), w, ids);
    }
  }

  lemma {:induction false} TokensGrow(job: Job, s: Sup, a: Audit, w: Worker, ids: seq<Id>)
    requires SupInv(job, s, a) && !s.error
    ensures s.tasks.done <= AckTokens(s, w, ids).tasks.done
  {
    hide StrayInv, Done, CountUp;
    if ids != [] {
      var (init, id) := (ids[..|ids| - 1], ids[|ids| - 1]);
      TokensGrow(job, s, a, w, init);
      AckTokensKeep(job, s, a, w, init);
      if Accepts(AckTokens(s, w, init), w, id) {
        FinishKeeps(job, AckTokens(s, w, init), a, w, id);
      }
    }
  }

  lemma SplitCard(a: set<Id>, b: set<Id>)
    ensures |b| + |a - b| == |a| + |b - a|
    ensures a <= b ==> |a - b| == 0
    ensures b <= a ==> |b - a| == 0
    ensures a == b ==> |a - b| == 0
  {
    assert a + b == b + (a - b) == a + (b - a);
    assert |a + b| == |b| + |a - b|;
    assert |a + b| == |a| + |b - a|;
  }

  // ----- whole runs

  ghost function RunAccepted(job: Job, s: Sup, es: seq<Event>): nat
    requires JobOk(job) && Legal(job, s, es)
    decreases |es|
  {
    if es == [] then 0 else Accepted(s, es[0]) + RunAccepted(job, Step(job, s, es[0]), es[1..])
  }

  ghost function RunUndone(job: Job, s: Sup, es: seq<Event>): nat
    requires JobOk(job) && Legal(job, s, es)
    decreases |es|
  {
    if es == [] then 0
    else
      var u := Step(job, s, es[0]);
      Undone(s, u) + RunUndone(job, u, es[1..])
  }

  // Workers taken off the roster over a run.
  ghost function RunRemoved(job: Job, s: Sup, es: seq<Event>): nat
    requires JobOk(job) && Legal(job, s, es)
    decreases |es|
  {
    if es == [] then 0
    else
      var u := Step(job, s, es[0]);
      Removed(s, u) + RunRemoved(job, u, es[1..])
  }

  lemma {:induction false} RunBalance(job: Job, s: Sup, a: Audit, es: seq<Event>)
    requires SupInv(job, s, a) && JobOk(job) && Legal(job, s, es)
    ensures |Run(job, s, es).tasks.done| + RunUndone(job, s, es) == |s.tasks.done| + RunAccepted(job, s, es)
    ensures RunUndone(job, s, es) <= TotalTasks(job) * RunRemoved(job, s, es)
    decreases |es|
  {
    hide StrayInv, Step, Enabled, Volume, Undone, Removed, Accepted, Balanced;
    if es != [] {
      var u := Step(job, s, es[0]);
      StepBalance(job, s, a, es[0]);
      DoneWithin(job, s, a, {});
      StepBound(s, u, Accepted(s, es[0]), TotalTasks(job));
      var b := StepKeeps(job, s, a, es[0]);
      if u.error {
        ErrorStops(job, u, es[1..]);
      } else {
        RunBalance(job, u, b, es[1..]);
      }
      Spread(TotalTasks(job), Removed(s, u), RunRemoved(job, u, es[1..]));
    }
  }

  lemma StepBound(s: Sup, u: Sup, accepted: nat, total: nat)
    requires Balanced(s, u, accepted) && |s.tasks.done| <= total
    ensures |u.tasks.done| + Undone(s, u) == |s.tasks.done| + accepted
    ensures Undone(s, u) <= total * Removed(s, u)
  {
    SubsetCard(s.tasks.done - u.tasks.done, s.tasks.done);
    if Removed(s, u) > 0 {
      assert total * Removed(s, u) >= total * 1;
    }
  }

  lemma Spread(n: nat, a: nat, b: nat)
    ensures n * (a + b) == n * a + n * b
  {
  }

  // Every accepted acknowledgement is either in the final count or was undone by a failure, so a
  // definition accepts at most its number of tasks once more for each worker taken off.
  lemma AcceptedIsBounded(job: Job, roster: seq<Worker>, index: map<Worker, nat>, unreachable: set<Worker>, es: seq<Event>)
    requires JobOk(job) && StartOk(roster, index) && Legal(job, Begin(job, roster, index, unreachable), es)
    ensures var s0 := Begin(job, roster, index, unreachable);
            var s := Run(job, s0, es);
            !s.error ==>
              && RunAccepted(job, s0, es) == s.acked + RunUndone(job, s0, es)
              && RunAccepted(job, s0, es) <= TotalTasks(job) * (RunRemoved(job, s0, es) + 1)
  {
    hide StrayInv, Run, RunAccepted, RunUndone, RunRemoved, Legal, Volume;
    var s0 := Begin(job, roster, index, unreachable);
    BeginInv(job, roster, index, unreachable);
    var a := RunKeeps(job, s0, Audit(0, map[]), es);
    RunBalance(job, s0, Audit(0, map[]), es);
    if !Run(job, s0, es).error {
      DoneWithin(job, Run(job, s0, es), a, {});
      Spread(TotalTasks(job), RunRemoved(job, s0, es), 1);
    }
  }

  // At every point of a run the counters are exact: the acknowledged tasks are the finished ones and
  // the sum of the workers' counts, the outstanding ones are the running ones and those of failed
  // sends, and the amounts a failure takes off never exceed what is there.
  lemma CountersAreExact(job: Job, roster: seq<Worker>, index: map<Worker, nat>, unreachable: set<Worker>, es: seq<Event>, w: Worker)
    requires JobOk(job) && StartOk(roster, index) && Legal(job, Begin(job, roster, index, unreachable), es)
    ensures var s0 := Begin(job, roster, index, unreachable);
            var s := Run(job, s0, es);
            !s.error ==>
              && s.acked == |s.tasks.done| && s.outstanding == |s.tasks.running| + RunLost(job, s0, es)
              && ToSet(s.roster) <= s.index.Keys && SumCounts(s.counts, s.index, s.roster) == s.acked
              && LiveIn(s.tasks, Sent(s, w)) <= s.outstanding && DoneIn(s.tasks, Sent(s, w)) <= s.acked
              && (w in s.index ==> Lookup(s.counts, s.index[w], 0) == DoneIn(s.tasks, Sent(s, w)))
  {
    hide StrayInv, Run, RunLost, Legal, Volume, SumCounts, LiveIn, DoneIn, TasksOf;
    var s0 := Begin(job, roster, index, unreachable);
    BeginInv(job, roster, index, unreachable);
    var a := RunKeeps(job, s0, Audit(0, map[]), es);
    var s := Run(job, s0, es);
    if !s.error {
      CountsSumToAcked(job, s, a);
      ExactState(job, s, a, w);
    }
  }

  lemma ExactState(job: Job, s: Sup, a: Audit, w: Worker)
    requires SupInv(job, s, a)
    ensures s.acked == |s.tasks.done| && s.outstanding == |s.tasks.running| + a.lost
    ensures LiveIn(s.tasks, Sent(s, w)) <= s.outstanding && DoneIn(s.tasks, Sent(s, w)) <= s.acked
    ensures w in s.index ==> Lookup(s.counts, s.index[w], 0) == DoneIn(s.tasks, Sent(s, w))
  {
    hide TasksInv, Numbered, Recorded, Covered, Registered, Named, LiveIn, TasksOf;
    CountsCovered(s.tasks, s.outstanding, s.acked, a.lost, Sent(s, w));
  }

  // ----- a measure that shrinks while nobody joins

  // Workers still registered, then tasks not finished, as one number.
  ghost function Weight(job: Job, s: Sup): int
    requires JobOk(job)
  {
    |s.roster| * (TotalTasks(job) + 1) + (TotalTasks(job) - |s.tasks.done|)
  }

  lemma WeightFalls(r: nat, r': nat, d: nat, d': nat, total: nat, accepted: nat)
    requires r' <= r && d <= total && d' <= d + accepted
    requires r' == r ==> d' == d + accepted
    requires accepted > 0 ==> r' == r
    ensures r' * (total + 1) + (total - d') + accepted + (r - r') <= r * (total + 1) + (total - d)
  {
    var k := r - r';
    assert r * (total + 1) == r' * (total + 1) + k * (total + 1);
    if k > 0 {
      assert k * (total + 1) == k * total + k;
      assert k * total >= 1 * total;
    }
  }

  lemma StepWeight(job: Job, s: Sup, a: Audit, e: Event)
    requires SupInv(job, s, a) && JobOk(job) && Enabled(job, s, e) && !e.GotInitAck?
    ensures Weight(job, Step(job, s, e)) + Accepted(s, e) + Removed(s, Step(job, s, e)) <= Weight(job, s)
  {
    hide StrayInv, Step, Enabled, Volume, Accepted;
    var u := Step(job, s, e);
    StepBalance(job, s, a, e);
    DoneWithin(job, s, a, {});
    WeightFalls(|s.roster|, |u.roster|, |s.tasks.done|, |u.tasks.done|, TotalTasks(job), Accepted(s, e));
  }

  ghost predicate NoJoins(es: seq<Event>) { forall k :: 0 <= k < |es| ==> !es[k].GotInitAck? }

  lemma {:induction false} RunWeight(job: Job, s: Sup, a: Audit, es: seq<Event>)
    requires SupInv(job, s, a) && JobOk(job) && Legal(job, s, es) && NoJoins(es)
    ensures Weight(job, Run(job, s, es)) + RunAccepted(job, s, es) + RunRemoved(job, s, es) <= Weight(job, s)
    decreases |es|
  {
    hide StrayInv, Step, Enabled, Weight, Removed, Accepted;
    if es != [] {
      var u := Step(job, s, es[0]);
      StepWeight(job, s, a, es[0]);
      var b := StepKeeps(job, s, a, es[0]);
      if u.error {
        ErrorStops(job, u, es[1..]);
      } else {
        assert NoJoins(es[1..]);
        RunWeight(job, u, b, es[1..]);
      }
    }
  }

  // Without joins, accepted acknowledgements and removed workers together are bounded by the first roster.
  lemma NoJoinBound(job: Job, roster: seq<Worker>, index: map<Worker, nat>, unreachable: set<Worker>, es: seq<Event>)
    requires JobOk(job) && StartOk(roster, index) && Legal(job, Begin(job, roster, index, unreachable), es) && NoJoins(es)
    ensures var s0 := Begin(job, roster, index, unreachable);
            !Run(job, s0, es).error ==>
              RunAccepted(job, s0, es) + RunRemoved(job, s0, es) <= |roster| * (TotalTasks(job) + 1) + TotalTasks(job)
  {
    hide StrayInv, Run, RunAccepted, RunRemoved, Legal, TotalTasks, Weight;
    var s0 := Begin(job, roster, index, unreachable);
    BeginInv(job, roster, index, unreachable);
    var a := RunKeeps(job, s0, Audit(0, map[]), es);
    RunWeight(job, s0, Audit(0, map[]), es);
    if !Run(job, s0, es).error {
      DoneWithin(job, Run(job, s0, es), a, {});
      WeightCounts(job, Run(job, s0, es));
    }
    WeightBegins(job, s0);
  }

  lemma WeightCounts(job: Job, s: Sup)
    requires JobOk(job) && |s.tasks.done| <= TotalTasks(job)
    ensures Weight(job, s) >= 0
  {
    hide Volume;
  }

  lemma WeightBegins(job: Job, s: Sup)
    requires JobOk(job) && s.tasks == EMPTY
    ensures Weight(job, s) == |s.roster| * (TotalTasks(job) + 1) + TotalTasks(job)
  {
    hide Volume;
  }

  // ----- a failed send is fatal

  lemma {:induction false} RunSplit(job: Job, s: Sup, xs: seq<Event>, ys: seq<Event>)
    requires JobOk(job) && Legal(job, s, xs + ys)
    ensures Legal(job, s, xs) && Legal(job, Run(job, s, xs), ys)
    ensures Run(job, s, xs + ys) == Run(job, Run(job, s, xs), ys)
    ensures RunLost(job, s, xs + ys) == RunLost(job, s, xs) + RunLost(job, Run(job, s, xs), ys)
    decreases |xs|
  {
    hide Step, Enabled, StepLost;
    if xs == [] {
      assert xs + ys == ys;
    } else {
      assert (xs + ys)[0] == xs[0] && (xs + ys)[1..] == xs[1..] + ys;
      RunSplit(job, Step(job, s, xs[0]), xs[1..], ys);
    }
  }

  // A pass that finds a worker below the task limit puts at least one task in its message.
  lemma PassLoads(job: Job, s: Sup, a: Audit)
    requires SupInv(job, s, a) && JobOk(job) && CanDispatch(s) && job.tcp
    requires s.outstanding < MaxMessages(s) * job.batch
    ensures (exists w :: w in s.roster && Eligible(job, s, w)) ==> LostTasks(job, s, false) > 0
  {
    hide StrayInv, Fill, FillInv, Pick, Eligible;
    PickIs(job, s);
    var c := Pick(job, s);
    var u := s.(turn := c.turn);
    Unrelated(job, s, a, {}, u);
    if c.found {
      RosterRegistered(job, s, a, {}, c.worker);
      FillKeeps(job, u, a, c.worker);
    }
  }

  // One TCP message that the socket does not take, and no continuation of the run ends in success:
  // the tasks of that message stay counted as outstanding for ever.
  lemma FailedSendIsFatal(job: Job, roster: seq<Worker>, index: map<Worker, nat>, unreachable: set<Worker>,
                          before: seq<Event>, after: seq<Event>)
    requires JobOk(job) && StartOk(roster, index)
    requires Legal(job, Begin(job, roster, index, unreachable), before + ([Pass(false)] + after))
    ensures var s0 := Begin(job, roster, index, unreachable);
            && Legal(job, s0, before) && Run(job, s0, before).roster != []
            && (LostTasks(job, Run(job, s0, before), false) > 0 ==>
                  var s := Run(job, s0, before + ([Pass(false)] + after)); s.error || !LoopEnds(s))
  {
    hide StrayInv, Run, RunLost, LostTasks, Step, OnlyHolder, Volume, LoopEnds;
    var s0 := Begin(job, roster, index, unreachable);
    RunSplit(job, s0, before, [Pass(false)] + after);
    var es := before + ([Pass(false)] + after);
    SuccessMeansAllDone(job, roster, index, unreachable, es);
    var s := Run(job, s0, before);
    FirstStep(job, s, Pass(false), after);
  }

  lemma FirstStep(job: Job, s: Sup, e: Event, es: seq<Event>)
    requires JobOk(job) && Legal(job, s, [e] + es)
    ensures Enabled(job, s, e) && RunLost(job, s, [e] + es) >= StepLost(job, s, e)
  {
    hide Step, StepLost;
    assert ([e] + es)[0] == e && ([e] + es)[1..] == es;
  }

  // At the task limit, which only failed TCP sends can reach with messages to spare, a pass changes
  // nothing but the round-robin position, and the next pass changes nothing at all while the loop
  // condition still holds: the dispatch loop spins.
  lemma DispatchSpins(job: Job, s: Sup, sent: bool)
    requires JobOk(job) && job.tcp && CanDispatch(s) && s.outstanding >= MaxMessages(s) * job.batch
    requires Pick(job, s).found
    ensures var u := Dispatch(job, s, sent);
            && u == s.(turn := Pick(job, s).turn) && CanDispatch(u)
            && Pick(job, u).found && Dispatch(job, u, sent) == u
  {
    hide Fill, Search;
    var c := Pick(job, s);
    var u := s.(turn := c.turn);
    FillAtLimit(job, u, c.worker);
    PickAgain(job, s);
  }

  lemma PickAgain(job: Job, s: Sup)
    requires s.roster != [] && Pick(job, s).found
    ensures Pick(job, s.(turn := Pick(job, s).turn)) == Pick(job, s)
  {
    hide Eligible;
    if job.tcp {
      SearchFinds(job, s, s.turn, |s.roster|);
      SearchSame(job, s, s.(turn := Pick(job, s).turn), Pick(job, s).turn, |s.roster|);
    }
  }

  lemma {:induction false} SearchFinds(job: Job, s: Sup, turn: nat, left: nat)
    requires s.roster != [] && Search(job, s, turn, left).found
    ensures var c := Search(job, s, turn, left);
            c.worker == s.roster[c.turn % |s.roster|] && Eligible(job, s, c.worker)
    decreases left
  {
    hide Eligible;
    if !Eligible(job, s, s.roster[turn % |s.roster|]) {
      SearchFinds(job, s, turn + 1, left - 1);
    }
  }

  lemma SearchSame(job: Job, s: Sup, u: Sup, turn: nat, left: nat)
    requires s.roster != [] && u == s.(turn := u.turn) && left > 0
    requires Eligible(job, s, s.roster[turn % |s.roster|])
    ensures Search(job, u, turn, left) == Choice(true, s.roster[turn % |s.roster|], turn)
  {
  }

  // ----- the per-worker counts

  function SumCounts(counts: map<nat, nat>, index: map<Worker, nat>, ws: seq<Worker>): nat
    requires ToSet(ws) <= index.Keys
  {
    if ws == [] then 0
    else
      assert ws[0] in ToSet(ws);
      assert ToSet(ws[1..]) <= ToSet(ws);
      Lookup(counts, index[ws[0]], 0) + SumCounts(counts, index, ws[1..])
  }

  function SentToAny(history: map<Worker, set<Id>>, ws: seq<Worker>): set<Id> {
    if ws == [] then {} else TasksOf(history, ws[0]) + SentToAny(history, ws[1..])
  }

  lemma {:induction false} SentToAnyIs(history: map<Worker, set<Id>>, ws: seq<Worker>, id: Id)
    ensures id in SentToAny(history, ws) <==> exists w :: w in ws && id in TasksOf(history, w)
  {
    hide TasksOf;
    if ws != [] {
      SentToAnyIs(history, ws[1..], id);
      assert forall w :: w in ws <==> w == ws[0] || w in ws[1..];
      assert ws[0] in ws;
    }
  }

  lemma ApartFromRest(history: map<Worker, set<Id>>, sentTo: map<Id, Worker>, ws: seq<Worker>)
    requires Recorded(history, sentTo) && ws != [] && ws[0] !in ws[1..]
    ensures TasksOf(history, ws[0]) !! SentToAny(history, ws[1..])
  {
    hide Recorded, TasksOf;
    forall id | id in SentToAny(history, ws[1..]) ensures id !in TasksOf(history, ws[0]) {
      SentToAnyIs(history, ws[1..], id);
      var w :| w in ws[1..] && id in TasksOf(history, w);
      SentApart(history, sentTo, ws[0], w);
    }
  }

  lemma UnionCard(a: set<Id>, b: set<Id>, c: set<Id>)
    requires b !! c
    ensures |a * (b + c)| == |a * b| + |a * c|
  {
    assert a * (b + c) == (a * b) + (a * c);
  }

  lemma {:induction false} SumIs(s: Sup, sentTo: map<Id, Worker>, ws: seq<Worker>)
    requires Recorded(s.history, sentTo) && Counted(s.tasks.done, s.history, s.index, s.counts)
    requires Distinct(ws) && ToSet(ws) <= s.index.Keys
    ensures SumCounts(s.counts, s.index, ws) == |s.tasks.done * SentToAny(s.history, ws)|
  {
    hide Recorded, TasksOf;
    if ws == [] {
      assert s.tasks.done * {} == {};
    } else {
      DistinctTail(ws);
      assert ws[0] in ToSet(ws);
      SumIs(s, sentTo, ws[1..]);
      ApartFromRest(s.history, sentTo, ws);
      UnionCard(s.tasks.done, TasksOf(s.history, ws[0]), SentToAny(s.history, ws[1..]));
    }
  }

  lemma DoneSent(job: Job, s: Sup, a: Audit, id: Id)
    requires SupInv(job, s, a) && id in s.tasks.done
    ensures id in SentToAny(s.history, s.roster)
  {
    hide TasksInv, Numbered, Counters, Registered, Counted, Named;
    var w := a.sentTo[id];
    assert w in s.history && id in TasksOf(s.history, w);
    RosterNames(s.roster, s.index, s.joining, w);
    SentToAnyIs(s.history, s.roster, id);
  }

  // The completed counts of the registered workers add up to the acknowledged tasks.
  lemma CountsSumToAcked(job: Job, s: Sup, a: Audit)
    requires SupInv(job, s, a)
    ensures ToSet(s.roster) <= s.index.Keys
    ensures SumCounts(s.counts, s.index, s.roster) == s.acked
  {
    hide TasksInv, Numbered, Counted, Named, Recorded, Covered, SumCounts, SentToAny, Identity;
    SumIs(s, a.sentTo, s.roster);
    forall id | id in s.tasks.done ensures id in SentToAny(s.history, s.roster) {
      DoneSent(job, s, a, id);
    }
    assert s.tasks.done * SentToAny(s.history, s.roster) == s.tasks.done;
  }
}

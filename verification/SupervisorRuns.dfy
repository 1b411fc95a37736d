// Whole runs of the supervisor: any order of dispatch passes, acknowledgements, failures and joins.
module SupervisorRuns {
  import opened Collections
  import opened TaskState
  import opened Odometer
  import opened Supervisor
  import opened SupervisorInvariant
  import opened SupervisorSteps
  import opened SupervisorDispatch

  // What can happen to the supervisor while it dispatches one definition.
  datatype Event =
    | Pass(sent: bool)                    // one dispatch pass; sent: the socket takes the message
    | Sweep                               // removal of the TCP workers marked so far
    | GotAck(w: Worker, id: Id)
    | GotAckB(w: Worker, ids: seq<Id>)
    | Lose(w: Worker, grace: bool)        // time-out or crash; grace: SHUTDOWN of a TCP worker
    | GotReady(w: Worker, i: nat)
    | GotInitAck(w: Worker)
    | Abort                               // interrupt, stall, ERR or malformed message

  // Only identities built from their index are answered with INIT.
  ghost predicate Enabled(job: Job, s: Sup, e: Event) {
    && !s.error
    && match e
       case Pass(_) => CanDispatch(s)
       case Sweep => job.tcp
       case Lose(_, grace) => grace ==> job.tcp
       case GotReady(w, i) => job.tcp && w == Identity(i)
       case GotInitAck(_) => job.tcp
       case _ => true
  }

  ghost function Lost(s: Sup, w: Worker, grace: bool): Sup {
    var u := FailWorker(s, w);
    if u.roster == [] && !grace then u.(error := true) else u
  }

  ghost function Step(job: Job, s: Sup, e: Event): Sup
    requires JobOk(job) && Enabled(job, s, e)
  {
    match e
    case Pass(sent) => Dispatch(job, s, sent)
    case Sweep => Cleanup(s)
    case GotAck(w, id) => Ack(s, w, id)
    case GotAckB(w, ids) => AckB(s, w, ids)
    case Lose(w, grace) => Lost(s, w, grace)
    case GotReady(w, i) => Ready(s, w, i)
    case GotInitAck(w) => InitAck(s, w)
    case Abort => s.(error := true)
  }

  // ----- late joins keep the invariant

  lemma ReadyKeeps(job: Job, s: Sup, a: Audit, w: Worker, i: nat)
    requires SupInv(job, s, a) && w == Identity(i)
    ensures SupInv(job, Ready(s, w, i), a)
  {
    hide TasksInv, Recorded, Covered, Tallies, Numbered, Counters, Identity;
  }

  lemma JoinRegistered(roster: seq<Worker>, index: map<Worker, nat>, joining: map<Worker, nat>, w: Worker)
    requires Registered(roster, index, joining) && w in joining
    ensures w !in index && w == Identity(joining[w])
    ensures Registered(roster + [w], index[w := joining[w]], joining - {w})
  {
    hide Identity;
    assert w !in ToSet(roster);
    DistinctAppend(roster, w);
  }

  lemma JoinCounted(done: set<Id>, history: map<Worker, set<Id>>, index: map<Worker, nat>, counts: map<nat, nat>, w: Worker, i: nat)
    requires Counted(done, history, index, counts) && w !in history && i !in counts
    ensures Counted(done, history, index[w := i], counts)
  {
    assert done * TasksOf(history, w) == {};
  }

  lemma JoinNamed(index: map<Worker, nat>, counts: map<nat, nat>, w: Worker, i: nat)
    requires Named(index, counts) && w !in index && w == Identity(i)
    ensures i !in counts && Named(index[w := i], counts)
  {
    hide Identity;
  }

  // A worker that joins has no history, and no count is left under its index.
  lemma JoinTallies(done: set<Id>, history: map<Worker, set<Id>>, index: map<Worker, nat>, counts: map<nat, nat>, w: Worker, i: nat)
    requires Tallies(done, history, index, counts) && w !in index && w == Identity(i)
    ensures Tallies(done, history, index[w := i], counts)
  {
    hide Identity, Named, Counted;
    JoinNamed(index, counts, w, i);
    JoinCounted(done, history, index, counts, w, i);
  }

  lemma InitAckKeeps(job: Job, s: Sup, a: Audit, w: Worker)
    requires SupInv(job, s, a)
    ensures SupInv(job, InitAck(s, w), a)
  {
    hide TasksInv, Recorded, Covered, Tallies, Numbered, Counters, Registered, Identity;
    if w in s.joining {
      JoinRegistered(s.roster, s.index, s.joining, w);
      JoinTallies(s.tasks.done, s.history, s.index, s.counts, w, s.joining[w]);
    }
  }

  // ----- every step

  function StepLost(job: Job, s: Sup, e: Event): nat
    requires JobOk(job) && (e.Pass? ==> s.roster != [])
  {
    if e.Pass? then LostTasks(job, s, e.sent) else 0
  }

  lemma LoseKeeps(job: Job, s: Sup, a: Audit, w: Worker, grace: bool)
    requires SupInv(job, s, a)
    ensures SupInv(job, Lost(s, w, grace), AfterFailure(a, s, w))
  {
    hide StrayInv, FailWorker, FailEffect;
    FailKeeps(job, s, a, {}, w);
    assert {} - Sent(s, w) == {};
    Unrelated(job, FailWorker(s, w), AfterFailure(a, s, w), {}, Lost(s, w, grace));
  }

  // Whatever the workers, the sockets and the clock do, the supervisor keeps its books in order.
  lemma StepKeeps(job: Job, s: Sup, a: Audit, e: Event) returns (b: Audit)
    requires SupInv(job, s, a) && Enabled(job, s, e)
    ensures JobOk(job)
    ensures !Step(job, s, e).error ==> SupInv(job, Step(job, s, e), b) && b.lost == a.lost + StepLost(job, s, e)
  {
    hide StrayInv, Dispatch, Cleanup, Ack, AckB, Lost, Ready, InitAck, LostTasks;
    TasksOfInv(job, s, a);
    b := a;
    match e
    case Pass(sent) => b := DispatchKeeps(job, s, a, sent);
    case Sweep => b := CleanupKeeps(job, s, a, {});
    case GotAck(w, id) => AckKeeps(job, s, a, w, id);
    case GotAckB(w, ids) => AckBKeeps(job, s, a, w, ids);
    case Lose(w, grace) =>
      LoseKeeps(job, s, a, w, grace);
      b := AfterFailure(a, s, w);
    case GotReady(w, i) => ReadyKeeps(job, s, a, w, i);
    case GotInitAck(w) => InitAckKeeps(job, s, a, w);
    case Abort =>
  }

  // ----- whole runs

  ghost predicate Legal(job: Job, s: Sup, es: seq<Event>)
    requires JobOk(job)
    decreases |es|
  {
    es == [] || (Enabled(job, s, es[0]) && Legal(job, Step(job, s, es[0]), es[1..]))
  }

  ghost function Run(job: Job, s: Sup, es: seq<Event>): Sup
    requires JobOk(job) && Legal(job, s, es)
    decreases |es|
  {
    if es == [] then s else Run(job, Step(job, s, es[0]), es[1..])
  }

  // Tasks in messages the sockets did not take, over a whole run.
  ghost function RunLost(job: Job, s: Sup, es: seq<Event>): nat
    requires JobOk(job) && Legal(job, s, es)
    decreases |es|
  {
    if es == [] then 0 else StepLost(job, s, es[0]) + RunLost(job, Step(job, s, es[0]), es[1..])
  }

  lemma {:induction false} RunKeeps(job: Job, s: Sup, a: Audit, es: seq<Event>) returns (b: Audit)
    requires SupInv(job, s, a) && JobOk(job) && Legal(job, s, es)
    ensures !Run(job, s, es).error ==> SupInv(job, Run(job, s, es), b) && b.lost == a.lost + RunLost(job, s, es)
    decreases |es|
  {
    hide StrayInv, Step, StepLost, Enabled;
    b := a;
    if es != [] {
      var u := Step(job, s, es[0]);
      var c := StepKeeps(job, s, a, es[0]);
      if u.error {
        ErrorStops(job, u, es[1..]);
      } else {
        b := RunKeeps(job, u, c, es[1..]);
      }
    }
  }

  lemma ErrorStops(job: Job, s: Sup, es: seq<Event>)
    requires JobOk(job) && Legal(job, s, es) && s.error
    ensures es == []
  {
  }

  // The dispatcher leaves its loop without an error and finds no task pending or running.
  predicate Returns(s: Sup) {
    && !s.error && !s.hasMore && s.outstanding == 0 && s.tasks.queue == []
    && s.tasks.pending == {} && s.tasks.running == map[]
  }

  // The state in which the loop condition becomes false.
  predicate LoopEnds(s: Sup) { !s.hasMore && s.outstanding == 0 && s.tasks.queue == [] }

  ghost predicate StartOk(roster: seq<Worker>, index: map<Worker, nat>) {
    && Distinct(roster) && ToSet(roster) == index.Keys
    && (forall w :: w in index ==> w == Identity(index[w]))
  }

  lemma EndedState(job: Job, s: Sup, a: Audit)
    requires SupInv(job, s, a) && LoopEnds(s)
    ensures a.lost == 0 && s.tasks.pending == {} && s.tasks.running == map[]
    ensures s.tasks.done == s.tasks.payloads.Keys
    ensures forall id: Id :: id in s.tasks.done <==> id < TotalTasks(job)
    ensures s.acked == TotalTasks(job)
  {
    hide Recorded, Covered, Registered, Tallies, OwnersInverse, PayloadsAgree, UniqueIds, Point, Volume;
    assert |s.tasks.running| == 0;
    assert s.tasks.running.Keys == {};
    RangeCard(s.tasks.done, TotalTasks(job));
  }

  // When the loop ends without an error, every task of the box is finished exactly once: the result is
  // the volume of the box, the later check for left-over tasks cannot fail, and no send was lost.
  lemma SuccessMeansAllDone(job: Job, roster: seq<Worker>, index: map<Worker, nat>, unreachable: set<Worker>, es: seq<Event>)
    requires JobOk(job) && StartOk(roster, index) && Legal(job, Begin(job, roster, index, unreachable), es)
    ensures var s := Run(job, Begin(job, roster, index, unreachable), es);
            !s.error && LoopEnds(s) ==>
              && Returns(s) && s.acked == Volume(job.lo, job.hi)
              && (forall id: Id :: id in s.tasks.done <==> id < Volume(job.lo, job.hi))
              && RunLost(job, Begin(job, roster, index, unreachable), es) == 0
              && (forall id :: id in s.tasks.done ==> OnlyHolder(s, id))
  {
    hide StrayInv, Run, RunLost, Legal, OnlyHolder, Volume;
    var s0 := Begin(job, roster, index, unreachable);
    BeginInv(job, roster, index, unreachable);
    var a := RunKeeps(job, s0, Audit(0, map[]), es);
    var s := Run(job, s0, es);
    if !s.error && LoopEnds(s) {
      EndedState(job, s, a);
      forall id | id in s.tasks.done ensures OnlyHolder(s, id) {
        DoneHolder(job, s, a, {}, id);
      }
    }
  }

  // The task is in the history of one registered worker and of no other.
  ghost predicate OnlyHolder(s: Sup, id: Id) {
    exists w :: w in s.index && id in Sent(s, w) && forall v :: id in Sent(s, v) ==> v == w
  }

  lemma DoneHolder(job: Job, s: Sup, a: Audit, stray: set<Id>, id: Id)
    requires StrayInv(job, s, a, stray) && id in s.tasks.done
    ensures OnlyHolder(s, id)
  {
    hide TasksInv, Numbered, Counters, Identity, Counted, Named;
    var w := a.sentTo[id];
    assert w in s.index && id in Sent(s, w);
    forall v | id in Sent(s, v) ensures v == w {
      assert v in s.history && id in s.history[v];
    }
  }

  // In every reachable state each finished task rests on exactly one worker, and that worker is still
  // registered: no result counts that was computed by a worker taken off the roster.
  lemma NoResultOfLostWorker(job: Job, roster: seq<Worker>, index: map<Worker, nat>, unreachable: set<Worker>, es: seq<Event>)
    requires JobOk(job) && StartOk(roster, index) && Legal(job, Begin(job, roster, index, unreachable), es)
    ensures var s := Run(job, Begin(job, roster, index, unreachable), es);
            !s.error ==> forall id :: id in s.tasks.done ==> OnlyHolder(s, id)
  {
    hide StrayInv, Run, RunLost, Legal, OnlyHolder;
    var s0 := Begin(job, roster, index, unreachable);
    BeginInv(job, roster, index, unreachable);
    var a := RunKeeps(job, s0, Audit(0, map[]), es);
    var s := Run(job, s0, es);
    if !s.error {
      forall id | id in s.tasks.done ensures OnlyHolder(s, id) {
        DoneHolder(job, s, a, {}, id);
      }
    }
  }
}

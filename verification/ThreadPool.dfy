// The thread pool behind ExecuteParallel: one main thread that enqueues the points of the box, waits and
// joins, and workers that run them. Every step is one critical section or one action outside the lock;
// a wait on a condition variable is a step that is possible once its condition holds.
module ThreadPool {
  import opened Collections
  import opened Odometer

  datatype Main = Enqueuing | Stopping | Waiting | Joining | Finished

  // A worker holds a task between taking it and counting it off; one whose task has raised an exception
  // stores it unless there is one already, drains the queue and only then counts its own task off.
  datatype Thread = Idle | Holding(k: nat) | Ran(k: nat) | Raised(k: nat) | Thrown(k: nat) | Drained(k: nat) | Exited

  datatype Pool = Pool(
    main: Main,
    next: nat,              // points enqueued so far, which is also the position of the odometer in the box
    queue: seq<nat>,        // tasks by the position of their point
    active: int,            // active_tasks
    stop: bool,
    threads: seq<Thread>,
    taken: nat,             // tasks taken from the queue so far
    calls: seq<nat>,        // calls of the function, in order
    first: Option<nat>,     // first_exception, by the task that raised it
    throws: seq<nat>,       // exceptions in the order in which they came to be stored
    drained: bool)

  function Idles(n: nat): seq<Thread> { seq(n, i => Idle) }

  function Start(n: nat): Pool {
    Pool(Enqueuing, 0, [], 0, false, Idles(n), 0, [], None, [], false)
  }

  // What the main thread rethrows after joining.
  function Rethrown(p: Pool): Option<nat> { p.first }

  // ----- the steps

  datatype Step =
    | Enqueue                        // under the lock, unless the pool is stopped
    | Break                          // the main thread sees the pool stopped
    | Stop
    | Wake                           // wait until stopped and no task is active
    | Join
    | Pop(i: nat)
    | Exit(i: nat)
    | Call(i: nat, throws: bool)     // runs the task, which may raise an exception
    | Store(i: nat)                  // under the exception lock
    | Drain(i: nat)
    | CountOff(i: nat)               // --active_tasks, outside the lock

  predicate Can(total: nat, p: Pool, s: Step)
  {
    match s
    case Enqueue => p.main.Enqueuing? && !p.stop && p.next < total
    case Break => p.main.Enqueuing? && p.stop
    case Stop => p.main.Stopping?
    case Wake => p.main.Waiting? && p.stop && p.active == 0
    case Join => p.main.Joining? && forall i :: 0 <= i < |p.threads| ==> p.threads[i].Exited?
    case Pop(i) => i < |p.threads| && p.threads[i].Idle? && p.queue != []
    case Exit(i) => i < |p.threads| && p.threads[i].Idle? && p.stop && p.queue == []
    case Call(i, _) => i < |p.threads| && p.threads[i].Holding?
    case Store(i) => i < |p.threads| && p.threads[i].Raised?
    case Drain(i) => i < |p.threads| && p.threads[i].Thrown?
    case CountOff(i) => i < |p.threads| && (p.threads[i].Ran? || p.threads[i].Drained?)
  }

  function Do(total: nat, p: Pool, s: Step): Pool
    requires Can(total, p, s)
  {
    match s
    case Enqueue =>
      p.(queue := p.queue + [p.next], active := p.active + 1, next := p.next + 1,
         main := if p.next + 1 == total then Stopping else Enqueuing)
    case Break => p.(main := Stopping)
    case Stop => p.(stop := true, main := Waiting)
    case Wake => p.(main := Joining)
    case Join => p.(main := Finished)
    case Pop(i) => p.(queue := p.queue[1..], taken := p.taken + 1, threads := p.threads[i := Holding(p.queue[0])])
    case Exit(i) => p.(threads := p.threads[i := Exited])
    case Call(i, throws) =>
      var k := p.threads[i].k;
      p.(calls := p.calls + [k], threads := p.threads[i := if throws then Raised(k) else Ran(k)])
    case Store(i) =>
      var k := p.threads[i].k;
      p.(first := if p.first.None? then Some(k) else p.first, throws := p.throws + [k], threads := p.threads[i := Thrown(k)])
    case Drain(i) =>
      p.(stop := true, active := p.active - |p.queue|, queue := [], drained := true,
         threads := p.threads[i := Drained(p.threads[i].k)])
    case CountOff(i) =>
      p.(active := p.active - 1, threads := p.threads[i := if p.threads[i].Ran? then Idle else Exited])
  }

  // ----- counting threads

  function Active(t: Thread): nat { if t.Idle? || t.Exited? then 0 else 1 }

  function Held(ts: seq<Thread>): nat {
    if ts == [] then 0 else Active(ts[0]) + Held(ts[1..])
  }

  function Owns(t: Thread, k: nat): nat { if t.Holding? && t.k == k then 1 else 0 }

  // How many workers hold task k and have not called the function on it.
  function Waits(ts: seq<Thread>, k: nat): nat {
    if ts == [] then 0 else Owns(ts[0], k) + Waits(ts[1..], k)
  }

  function Times(calls: seq<nat>, k: nat): nat { multiset(calls)[k] }

  function Effort(t: Thread): nat {
    match t
    case Idle => 1
    case Holding(_) => 4
    case Ran(_) => 2
    case Raised(_) => 3
    case Thrown(_) => 2
    case Drained(_) => 1
    case Exited => 0
  }

  function Efforts(ts: seq<Thread>): nat {
    if ts == [] then 0 else Effort(ts[0]) + Efforts(ts[1..])
  }

  function FirstOf(throws: seq<nat>): Option<nat> { if throws == [] then None else Some(throws[0]) }

  // Workers that have stored an exception and not yet drained the queue.
  function Throwing(ts: seq<Thread>): nat {
    if ts == [] then 0 else (if ts[0].Thrown? then 1 else 0) + Throwing(ts[1..])
  }

  lemma {:induction false} Updated(ts: seq<Thread>, i: nat, t: Thread)
    requires i < |ts|
    ensures Held(ts[i := t]) + Active(ts[i]) == Held(ts) + Active(t)
    ensures Efforts(ts[i := t]) + Effort(ts[i]) == Efforts(ts) + Effort(t)
    ensures Throwing(ts[i := t]) + (if ts[i].Thrown? then 1 else 0) == Throwing(ts) + (if t.Thrown? then 1 else 0)
  {
    hide Active, Effort;
    if i == 0 {
      assert ts[i := t][1..] == ts[1..];
    } else {
      assert ts[i := t][1..] == ts[1..][i - 1 := t];
      Updated(ts[1..], i - 1, t);
    }
  }

  lemma {:induction false} UpdatedWaits(ts: seq<Thread>, i: nat, t: Thread, k: nat)
    requires i < |ts|
    ensures Waits(ts[i := t], k) + Owns(ts[i], k) == Waits(ts, k) + Owns(t, k)
  {
    hide Owns;
    if i == 0 {
      assert ts[i := t][1..] == ts[1..];
    } else {
      assert ts[i := t][1..] == ts[1..][i - 1 := t];
      UpdatedWaits(ts[1..], i - 1, t, k);
    }
  }

  lemma {:induction false} HeldBy(ts: seq<Thread>, i: nat)
    requires i < |ts|
    ensures Held(ts) >= Active(ts[i])
  {
    if i > 0 {
      HeldBy(ts[1..], i - 1);
    }
  }

  lemma {:induction false} AllQuiet(ts: seq<Thread>)
    requires forall i :: 0 <= i < |ts| ==> Active(ts[i]) == 0
    ensures Held(ts) == 0 && Throwing(ts) == 0 && forall k: nat :: Waits(ts, k) == 0
  {
    if ts != [] {
      assert forall i :: 0 <= i < |ts[1..]| ==> ts[1..][i] == ts[i + 1];
      AllQuiet(ts[1..]);
    }
  }

  function Range(a: nat, b: nat): seq<nat>
    requires a <= b
  {
    seq(b - a, i requires 0 <= i => a + i)
  }

  // ----- the invariant

  // active_tasks counts the queued and the held tasks; every task taken was called or is held, once.
  ghost predicate Accounts(p: Pool) {
    && p.taken <= p.next
    && p.active == |p.queue| + Held(p.threads)
    && p.queue == (if p.drained then [] else Range(p.taken, p.next))
    && (forall k: nat :: Times(p.calls, k) + Waits(p.threads, k) == if k < p.taken then 1 else 0)
  }

  // Where the main thread can be, by how the pool was stopped.
  ghost predicate Phases(total: nat, p: Pool) {
    && p.next <= total
    && (p.main.Enqueuing? && !p.stop ==> p.next < total)
    && (p.stop && !p.drained ==> !p.main.Enqueuing? && !p.main.Stopping?)
    && (!p.main.Enqueuing? && !p.drained ==> p.next == total)
    && (!p.main.Enqueuing? && !p.main.Stopping? ==> p.stop)
    && (p.main.Joining? || p.main.Finished? ==> p.active == 0)
  }

  ghost predicate Threads(p: Pool) {
    && |p.threads| > 0
    && (p.main.Finished? ==> forall i :: 0 <= i < |p.threads| ==> p.threads[i].Exited?)
    && (forall i :: 0 <= i < |p.threads| && p.threads[i].Exited? ==> p.stop && p.queue == [])
    && (forall i :: 0 <= i < |p.threads| && p.threads[i].Drained? ==> p.drained)
    && (p.drained ==> p.stop && p.throws != [])
    && p.first == FirstOf(p.throws)
    && (if p.drained then Throwing(p.threads) <= |p.throws| else |p.throws| == Throwing(p.threads))
  }

  ghost predicate Inv(total: nat, p: Pool)
  {
    Accounts(p) && Phases(total, p) && Threads(p)
  }

  lemma RangeMore(a: nat, b: nat)
    requires a <= b
    ensures Range(a, b + 1) == Range(a, b) + [b]
    ensures a < b ==> Range(a, b)[0] == a && Range(a, b)[1..] == Range(a + 1, b)
    ensures Range(a, a) == []
  {
  }

  lemma {:induction false} StartThreads(n: nat)
    requires n > 0
    ensures Held(Idles(n)) == 0 && Throwing(Idles(n)) == 0
    ensures forall k: nat :: Waits(Idles(n), k) == 0
  {
    AllQuiet(Idles(n));
  }

  lemma StartInv(total: nat, n: nat)
    requires n > 0 && total > 0
    ensures Inv(total, Start(n))
  {
    StartThreads(n);
    RangeMore(0, 0);
  }

  // A worker changes without taking or running a task.
  lemma IdleChange(p: Pool, i: nat, t: Thread)
    requires i < |p.threads| && !p.threads[i].Holding? && !t.Holding?
    ensures forall k: nat :: Waits(p.threads[i := t], k) == Waits(p.threads, k)
    ensures Held(p.threads[i := t]) == Held(p.threads) - Active(p.threads[i]) + Active(t)
  {
    hide Held, Waits;
    Updated(p.threads, i, t);
    forall k: nat ensures Waits(p.threads[i := t], k) == Waits(p.threads, k) {
      UpdatedWaits(p.threads, i, t, k);
    }
  }

  lemma EnqueueAccounts(p: Pool, q: Pool)
    requires Accounts(p) && !p.drained
    requires q == p.(queue := p.queue + [p.next], active := p.active + 1, next := p.next + 1, main := q.main)
    ensures Accounts(q)
  {
    hide Held, Waits;
    RangeMore(p.taken, p.next);
  }

  lemma PopAccounts(p: Pool, i: nat)
    requires Accounts(p) && i < |p.threads| && p.threads[i].Idle? && p.queue != []
    ensures Accounts(p.(queue := p.queue[1..], taken := p.taken + 1, threads := p.threads[i := Holding(p.queue[0])]))
  {
    hide Held, Waits, Range, Times;
    RangeMore(p.taken, p.next);
    Taken(p.taken, p.next);
    Updated(p.threads, i, Holding(p.taken));
    forall k: nat
      ensures Times(p.calls, k) + Waits(p.threads[i := Holding(p.taken)], k) == if k < p.taken + 1 then 1 else 0
    {
      UpdatedWaits(p.threads, i, Holding(p.taken), k);
    }
  }

  lemma Taken(a: nat, b: nat)
    requires a <= b && Range(a, b) != []
    ensures a < b
  {
  }

  lemma CallAccounts(p: Pool, i: nat, t: Thread)
    requires Accounts(p) && i < |p.threads| && p.threads[i].Holding? && Active(t) == 1 && !t.Holding?
    ensures Accounts(p.(calls := p.calls + [p.threads[i].k], threads := p.threads[i := t]))
  {
    hide Held, Waits, Range;
    var calls := p.calls + [p.threads[i].k];
    Updated(p.threads, i, t);
    forall k: nat ensures Times(calls, k) + Waits(p.threads[i := t], k) == if k < p.taken then 1 else 0 {
      UpdatedWaits(p.threads, i, t, k);
    }
  }

  lemma StoreAccounts(p: Pool, i: nat, q: Pool)
    requires Accounts(p) && i < |p.threads| && p.threads[i].Raised?
    requires q == p.(first := q.first, throws := q.throws, threads := p.threads[i := Thrown(p.threads[i].k)])
    ensures Accounts(q)
  {
    hide Held, Waits, Range;
    IdleChange(p, i, Thrown(p.threads[i].k));
  }

  lemma DrainAccounts(p: Pool, i: nat)
    requires Accounts(p) && i < |p.threads| && p.threads[i].Thrown?
    ensures Accounts(p.(stop := true, active := p.active - |p.queue|, queue := [], drained := true,
                        threads := p.threads[i := Drained(p.threads[i].k)]))
  {
    hide Held, Waits, Range;
    IdleChange(p, i, Drained(p.threads[i].k));
  }

  lemma CountOffAccounts(p: Pool, i: nat, t: Thread)
    requires Accounts(p) && i < |p.threads| && (p.threads[i].Ran? || p.threads[i].Drained?) && (t.Idle? || t.Exited?)
    ensures Accounts(p.(active := p.active - 1, threads := p.threads[i := t]))
  {
    hide Held, Waits, Range;
    IdleChange(p, i, t);
  }

  lemma AccountsKeep(total: nat, p: Pool, s: Step)
    requires Accounts(p) && Can(total, p, s)
    requires s.Enqueue? ==> !p.drained
    ensures Accounts(Do(total, p, s))
  {
    hide Range, Throwing, Effort, Efforts, Held, Waits;
    match s
    case Enqueue => EnqueueAccounts(p, Do(total, p, s));
    case Pop(i) => PopAccounts(p, i);
    case Exit(i) => IdleChange(p, i, Exited);
    case Call(i, throws) => CallAccounts(p, i, if throws then Raised(p.threads[i].k) else Ran(p.threads[i].k));
    case Store(i) => StoreAccounts(p, i, Do(total, p, s));
    case Drain(i) => DrainAccounts(p, i);
    case CountOff(i) => CountOffAccounts(p, i, if p.threads[i].Ran? then Idle else Exited);
    case _ =>
  }

  lemma PhasesKeep(total: nat, p: Pool, s: Step)
    requires Inv(total, p) && Can(total, p, s)
    ensures Phases(total, Do(total, p, s))
  {
    hide Range, Throwing, Effort, Efforts, Waits, Held;
    match s
    case CountOff(i) => Busy(p, i);
    case Drain(i) => Busy(p, i);
    case _ =>
  }

  // While a thread holds a task the counter is positive, so the main thread is not past its wait.
  lemma Busy(p: Pool, i: nat)
    requires Accounts(p) && i < |p.threads| && Active(p.threads[i]) == 1
    ensures p.active > |p.queue|
  {
    hide Range, Waits;
    HeldBy(p.threads, i);
  }

  lemma ThreadsKeep(total: nat, p: Pool, s: Step)
    requires Inv(total, p) && Can(total, p, s)
    ensures Threads(Do(total, p, s))
  {
    hide Range, Effort, Efforts, Waits, Held, Throwing;
    match s
    case Pop(i) => Updated(p.threads, i, Holding(p.queue[0]));
    case Exit(i) => Updated(p.threads, i, Exited);
    case Call(i, throws) => Updated(p.threads, i, if throws then Raised(p.threads[i].k) else Ran(p.threads[i].k));
    case Store(i) => Updated(p.threads, i, Thrown(p.threads[i].k));
    case Drain(i) => Updated(p.threads, i, Drained(p.threads[i].k));
    case CountOff(i) => Updated(p.threads, i, if p.threads[i].Ran? then Idle else Exited);
    case _ =>
  }

  lemma StepKeeps(total: nat, p: Pool, s: Step)
    requires Inv(total, p) && Can(total, p, s)
    ensures Inv(total, Do(total, p, s))
  {
    hide Accounts, Threads, Phases, Do;
    DrainedIsStopped(total, p);
    AccountsKeep(total, p, s);
    PhasesKeep(total, p, s);
    ThreadsKeep(total, p, s);
  }

  lemma DrainedIsStopped(total: nat, p: Pool)
    requires Inv(total, p)
    ensures p.drained ==> p.stop
  {
  }

  // ----- whole runs

  ghost predicate Legal(total: nat, p: Pool, ss: seq<Step>)
    decreases |ss|
  {
    ss == [] || (Can(total, p, ss[0]) && Legal(total, Do(total, p, ss[0]), ss[1..]))
  }

  function Run(total: nat, p: Pool, ss: seq<Step>): Pool
    requires Legal(total, p, ss)
    decreases |ss|
  {
    if ss == [] then p else Run(total, Do(total, p, ss[0]), ss[1..])
  }

  lemma {:induction false} RunKeeps(total: nat, p: Pool, ss: seq<Step>)
    requires Inv(total, p) && Legal(total, p, ss)
    ensures Inv(total, Run(total, p, ss))
    decreases |ss|
  {
    hide Inv, Do, Can;
    if ss != [] {
      StepKeeps(total, p, ss[0]);
      RunKeeps(total, Do(total, p, ss[0]), ss[1..]);
    }
  }

  // No point runs twice, whatever happens; the counter is the queued plus the held tasks.
  lemma NoPointRunsTwice(total: nat, n: nat, ss: seq<Step>, k: nat)
    requires n > 0 && total > 0 && Legal(total, Start(n), ss)
    ensures var p := Run(total, Start(n), ss);
            Times(p.calls, k) <= 1 && p.active == |p.queue| + Held(p.threads) && (Times(p.calls, k) == 1 ==> k < total)
  {
    hide Run, Legal, Times, Held, Waits, Range;
    StartInv(total, n);
    RunKeeps(total, Start(n), ss);
    var p := Run(total, Start(n), ss);
    assert Times(p.calls, k) + Waits(p.threads, k) == if k < p.taken then 1 else 0;
  }

  lemma {:induction false} AllExited(ts: seq<Thread>, k: nat)
    requires forall i :: 0 <= i < |ts| ==> ts[i].Exited?
    ensures Waits(ts, k) == 0 && Throwing(ts) == 0
  {
    if ts != [] {
      assert forall i :: 0 <= i < |ts[1..]| ==> ts[1..][i] == ts[i + 1];
      AllExited(ts[1..], k);
    }
  }

  // When the call ends without an exception, every point of the box has been run exactly once.
  lemma EveryPointRunsOnce(total: nat, n: nat, ss: seq<Step>, k: nat)
    requires n > 0 && total > 0 && Legal(total, Start(n), ss)
    ensures var p := Run(total, Start(n), ss);
            && (p.main.Finished? && Rethrown(p).None? ==> Times(p.calls, k) == if k < total then 1 else 0)
            && (p.main.Finished? ==> p.active == 0 && p.queue == [] && p.stop)
  {
    hide Run, Legal, Times, Held, Waits;
    StartInv(total, n);
    RunKeeps(total, Start(n), ss);
    var p := Run(total, Start(n), ss);
    if p.main.Finished? {
      AllExited(p.threads, k);
      assert p.threads[0].Exited?;
      if p.throws == [] {
        assert |Range(p.taken, p.next)| == p.next - p.taken;
      }
      assert Times(p.calls, k) + Waits(p.threads, k) == if k < p.taken then 1 else 0;
    }
  }

  // The points the function was called on.
  function CalledOn(lo: Coords, hi: Coords, calls: seq<nat>): seq<Coords>
    requires IsBox(lo, hi)
  {
    if calls == [] then [] else CalledOn(lo, hi, calls[..|calls| - 1]) + [Point(lo, hi, calls[|calls| - 1])]
  }

  lemma {:induction false} CallsOf(lo: Coords, hi: Coords, calls: seq<nat>, k: nat)
    requires IsBox(lo, hi) && k < Volume(lo, hi) && forall i :: 0 <= i < |calls| ==> calls[i] < Volume(lo, hi)
    ensures multiset(CalledOn(lo, hi, calls))[Point(lo, hi, k)] == Times(calls, k)
  {
    hide Point, Volume;
    if calls != [] {
      var (init, last) := (calls[..|calls| - 1], calls[|calls| - 1]);
      CallsOf(lo, hi, init, k);
      RankOfPoint(lo, hi, k);
      RankOfPoint(lo, hi, last);
      assert calls == init + [last];
    }
  }

  lemma CallsBelow(total: nat, p: Pool)
    requires Inv(total, p)
    ensures forall i :: 0 <= i < |p.calls| ==> p.calls[i] < total
  {
    hide Waits, Held, Range, Threads;
    forall i | 0 <= i < |p.calls| ensures p.calls[i] < total {
      assert p.calls[i] in multiset(p.calls);
      assert Times(p.calls, p.calls[i]) + Waits(p.threads, p.calls[i]) == if p.calls[i] < p.taken then 1 else 0;
    }
  }

  // Over a box: when the call ends without an exception the function has been called on each of its
  // points exactly once; before that, and after an exception, at most once.
  lemma BoxRunsOnce(lo: Coords, hi: Coords, n: nat, ss: seq<Step>, c: Coords)
    requires IsBox(lo, hi) && n > 0 && InBox(lo, hi, c) && Legal(Volume(lo, hi), Start(n), ss)
    ensures var p := Run(Volume(lo, hi), Start(n), ss);
            var times := multiset(CalledOn(lo, hi, p.calls))[c];
            times <= 1 && (p.main.Finished? && Rethrown(p).None? ==> times == 1)
  {
    hide Volume, Run, Legal, Times, Point, CalledOn, Inv;
    var (total, k) := (Volume(lo, hi), Rank(lo, hi, c));
    RankInRange(lo, hi, c);
    PointOfRank(lo, hi, c);
    StartInv(total, n);
    RunKeeps(total, Start(n), ss);
    CallsBelow(total, Run(total, Start(n), ss));
    CallsOf(lo, hi, Run(total, Start(n), ss).calls, k);
    NoPointRunsTwice(total, n, ss, k);
    EveryPointRunsOnce(total, n, ss, k);
  }

  // ----- after an exception

  // Once the queue has been drained nothing is enqueued or taken any more, the queue stays empty, and
  // the exception that will be rethrown is settled.
  lemma {:induction false} DrainedForGood(total: nat, p: Pool, ss: seq<Step>)
    requires Inv(total, p) && p.drained && Legal(total, p, ss)
    ensures var q := Run(total, p, ss);
            q.drained && q.queue == [] && q.next == p.next && q.taken == p.taken && Rethrown(q) == Rethrown(p) && Rethrown(p).Some?
    decreases |ss|
  {
    hide Accounts, Phases;
    DrainedFacts(total, p);
    if ss != [] {
      StepKeeps(total, p, ss[0]);
      DrainedStep(total, p, ss[0]);
      DrainedForGood(total, Do(total, p, ss[0]), ss[1..]);
    }
  }

  lemma DrainedFacts(total: nat, p: Pool)
    requires Inv(total, p) && p.drained
    ensures p.queue == [] && p.stop && p.throws != [] && p.first.Some?
  {
  }

  lemma DrainedStep(total: nat, p: Pool, s: Step)
    requires p.drained && p.queue == [] && p.stop && p.first.Some? && Can(total, p, s)
    ensures var q := Do(total, p, s);
            q.drained && q.queue == [] && q.next == p.next && q.taken == p.taken && q.first == p.first
  {
  }

  // The tasks whose exceptions came to be stored over a run, in the order of the exception lock.
  function StoredBy(total: nat, p: Pool, ss: seq<Step>): seq<nat>
    requires Legal(total, p, ss)
    decreases |ss|
  {
    if ss == [] then []
    else (if ss[0].Store? then [p.threads[ss[0].i].k] else []) + StoredBy(total, Do(total, p, ss[0]), ss[1..])
  }

  lemma StoreGrows(total: nat, p: Pool, s: Step)
    requires Can(total, p, s)
    ensures Do(total, p, s).throws == p.throws + if s.Store? then [p.threads[s.i].k] else []
  {
  }

  lemma {:induction false} ThrowsGrow(total: nat, p: Pool, ss: seq<Step>)
    requires Legal(total, p, ss)
    ensures Run(total, p, ss).throws == p.throws + StoredBy(total, p, ss)
    decreases |ss|
  {
    if ss != [] {
      StoreGrows(total, p, ss[0]);
      ThrowsGrow(total, Do(total, p, ss[0]), ss[1..]);
    }
  }

  // The guard keeps the first exception: what is rethrown is the one that was first to get the exception
  // lock, and nothing is rethrown exactly if none did.
  lemma FirstThrowStays(total: nat, n: nat, ss: seq<Step>)
    requires n > 0 && total > 0 && Legal(total, Start(n), ss)
    ensures Rethrown(Run(total, Start(n), ss)) == FirstOf(StoredBy(total, Start(n), ss))
  {
    hide Accounts, Phases, Legal, Run, StoredBy;
    StartInv(total, n);
    RunKeeps(total, Start(n), ss);
    ThrowsGrow(total, Start(n), ss);
  }

  // Every exception that was raised has been stored when the call ends.
  ghost predicate RaisedIn(total: nat, p: Pool, ss: seq<Step>)
    requires Legal(total, p, ss)
    decreases |ss|
  {
    ss != [] && ((ss[0].Call? && ss[0].throws) || RaisedIn(total, Do(total, p, ss[0]), ss[1..]))
  }

  ghost predicate Raising(p: Pool) { p.throws != [] || exists i :: 0 <= i < |p.threads| && p.threads[i].Raised? }

  lemma RaisingStep(total: nat, p: Pool, s: Step)
    requires Can(total, p, s)
    ensures Raising(Do(total, p, s)) <==> Raising(p) || (s.Call? && s.throws)
  {
    var q := Do(total, p, s);
    if i :| 0 <= i < |p.threads| && p.threads[i].Raised? {
      assert q.throws != [] || q.threads[i].Raised?;
    }
    if s.Call? && s.throws {
      assert q.threads[s.i].Raised?;
    }
    if i :| 0 <= i < |q.threads| && q.threads[i].Raised? {
      assert p.threads[i].Raised? || (s.Call? && s.throws);
    }
  }

  lemma {:induction false} RaisingRun(total: nat, p: Pool, ss: seq<Step>)
    requires Legal(total, p, ss)
    ensures Raising(Run(total, p, ss)) <==> Raising(p) || RaisedIn(total, p, ss)
    decreases |ss|
  {
    hide Do, Can, Raising;
    if ss != [] {
      RaisingStep(total, p, ss[0]);
      RaisingRun(total, Do(total, p, ss[0]), ss[1..]);
    }
  }

  // When the call ends it rethrows an exception exactly if some call of the function raised one.
  lemma RethrowsIff(total: nat, n: nat, ss: seq<Step>)
    requires n > 0 && total > 0 && Legal(total, Start(n), ss) && Run(total, Start(n), ss).main.Finished?
    ensures Rethrown(Run(total, Start(n), ss)).Some? <==> RaisedIn(total, Start(n), ss)
  {
    hide Accounts, Phases, Legal, Run, RaisedIn;
    StartInv(total, n);
    RunKeeps(total, Start(n), ss);
    RaisingRun(total, Start(n), ss);
  }

  // ----- progress

  function PhasesLeft(m: Main): nat {
    match m case Enqueuing => 4 case Stopping => 3 case Waiting => 2 case Joining => 1 case Finished => 0
  }

  // Bounds the steps left: each step lowers it.
  function Left(total: nat, p: Pool): int
  {
    5 * (total - p.next) + 4 * |p.queue| + Efforts(p.threads) + PhasesLeft(p.main)
  }

  lemma StepsRunOut(total: nat, p: Pool, s: Step)
    requires Inv(total, p) && Can(total, p, s)
    ensures 0 <= Left(total, Do(total, p, s)) < Left(total, p)
  {
    hide Accounts, Held, Waits, Throwing, Efforts, Range;
    StepKeeps(total, p, s);
    match s
    case Pop(i) => Updated(p.threads, i, Holding(p.queue[0]));
    case Exit(i) => Updated(p.threads, i, Exited);
    case Call(i, throws) => Updated(p.threads, i, if throws then Raised(p.threads[i].k) else Ran(p.threads[i].k));
    case Store(i) => Updated(p.threads, i, Thrown(p.threads[i].k));
    case Drain(i) => Updated(p.threads, i, Drained(p.threads[i].k));
    case CountOff(i) => Updated(p.threads, i, if p.threads[i].Ran? then Idle else Exited);
    case _ =>
  }

  lemma {:induction false} SomeBusy(ts: seq<Thread>) returns (i: nat)
    requires Held(ts) > 0
    ensures i < |ts| && Active(ts[i]) == 1
  {
    if Active(ts[0]) == 1 {
      i := 0;
    } else {
      var j := SomeBusy(ts[1..]);
      i := j + 1;
    }
  }

  // The step of a thread that holds a task.
  function NextOf(t: Thread, i: nat): Step
    requires Active(t) == 1
  {
    if t.Holding? then Call(i, false) else if t.Raised? then Store(i) else if t.Thrown? then Drain(i) else CountOff(i)
  }

  // No state but the last is stuck: some thread can always take its next step.
  lemma NeverStuck(total: nat, p: Pool) returns (s: Step)
    requires Inv(total, p) && !p.main.Finished?
    ensures Can(total, p, s)
  {
    hide Waits, Throwing, Range, Times;
    if Held(p.threads) > 0 {
      var i := SomeBusy(p.threads);
      return NextOf(p.threads[i], i);
    }
    match p.main
    case Enqueuing => s := if p.stop then Break else Enqueue;
    case Stopping => s := Stop;
    case Finished => assert false;
    case _ =>
      if forall i :: 0 <= i < |p.threads| ==> p.threads[i].Exited? {
        assert p.threads[0].Exited?;
        s := if p.main.Waiting? then Wake else Join;
      } else {
        var i: nat :| i < |p.threads| && !p.threads[i].Exited?;
        HeldBy(p.threads, i);
        s := if p.queue == [] then Exit(i) else Pop(i);
      }
  }
}

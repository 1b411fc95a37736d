// What a dispatch pass puts into a message: how many tasks, and which ones.
module BatchShares {
  import opened Collections
  import opened TaskState
  import opened Odometer
  import opened Supervisor
  import opened SupervisorInvariant
  import opened SupervisorSteps

  // The remaining tasks are shared out over the workers: the batch size is the smallest number of which
  // one per worker covers them, but at least one and at most the configured size.
  lemma FairBatchSize(job: Job, s: Sup)
    requires JobOk(job) && s.roster != [] && s.next <= Volume(job.lo, job.hi)
    ensures var (n, left, size) := (|s.roster|, Volume(job.lo, job.hi) - s.next, BatchSize(job, s));
            && 1 <= size <= job.batch
            && (size < job.batch ==> size * n >= left)
            && (size > 1 ==> (size - 1) * n < left)
  {
    hide Volume;
    var (n, left) := (|s.roster|, Volume(job.lo, job.hi) - s.next);
    CeilingIs(left, n);
    var up := (left + n - 1) / n;
    var size := BatchSize(job, s);
    assert size <= up || size == 1;
    if size > 1 && size < up {
      MulGap(up - size, n);
      assert (up - 1) * n == (size - 1) * n + (up - size) * n;
    }
    if size < job.batch && size > up {
      assert size == 1 && up == 0;
    }
  }

  lemma CeilingIs(left: nat, n: nat)
    requires n >= 1
    ensures var up := (left + n - 1) / n; up >= 0 && up * n >= left && (up >= 1 ==> (up - 1) * n < left) && (up == 0 <==> left == 0)
  {
    var up := (left + n - 1) / n;
    assert left + n - 1 == up * n + (left + n - 1) % n;
    if up >= 1 {
      assert (up - 1) * n == up * n - n;
    } else {
      MulGap(up, n);
    }
    if left >= 1 && up <= 0 {
      MulGap(up, n);
    }
    if left == 0 && up >= 1 {
      MulGap(up, n);
    }
  }

  // Of a batch of several tasks at most a worker's share is replayed ones: the largest number of which one
  // per worker stays within the batch, but at least one.
  lemma FairReplayShare(job: Job, s: Sup)
    requires JobOk(job) && s.roster != []
    ensures var (n, size, share) := (|s.roster|, BatchSize(job, s), ReplayShare(job, s));
            && 1 <= share <= size && (share > 1 ==> share * n <= size) && (size > 1 ==> (share + 1) * n > size)
            && (size == 1 ==> share == 1)
  {
    hide BatchSize;
    BatchSizeBound(job, s);
    var (n, size) := (|s.roster|, BatchSize(job, s));
    var q := size / n;
    assert size == q * n + size % n;
    assert (q + 1) * n == q * n + n;
    if q >= 1 {
      assert q * n >= q by {
        MulGap(n - 1, q);
        assert q * n == q + (n - 1) * q;
      }
    } else {
      assert 2 * n >= n && n > size by {
        MulGap(q, n);
      }
    }
  }

  // ----- which tasks

  function Least(a: nat, b: nat, c: nat): nat { Min(a, Min(b, c)) }

  function First<T>(s: seq<T>, n: nat): seq<T> { if n <= |s| then s[..n] else s }

  // The next m new tasks, each with its point.
  function NewTasks(job: Job, from: nat, m: nat): (ts: seq<(Id, Payload)>)
    requires JobOk(job)
    ensures |ts| == m
    decreases m
  {
    if m == 0 then [] else [(from, Point(job.lo, job.hi, from))] + NewTasks(job, from + 1, m - 1)
  }

  lemma ClaimFields(s: Sup, w: Worker)
    requires s.tasks.queue != []
    ensures var u := ClaimFor(s, w);
            && u.tasks.queue == s.tasks.queue[1..] && u.outstanding == s.outstanding + 1
            && u.next == s.next && u.hasMore == s.hasMore && u.cur == s.cur
  {
  }

  // Replayed tasks come off the head of the queue.
  lemma {:induction false} TakesHead(f: Filled, w: Worker, limit: nat, room: nat)
    ensures var (g, m) := (TakeQueued(f, w, limit, room), Least(room, |f.s.tasks.queue|, Below(limit, f.s.outstanding)));
            && g.batch == f.batch + f.s.tasks.queue[..m] && g.s.tasks.queue == f.s.tasks.queue[m..]
            && g.s.outstanding == f.s.outstanding + m
            && g.s.next == f.s.next && g.s.hasMore == f.s.hasMore
    decreases room
  {
    hide ClaimFor;
    var q := f.s.tasks.queue;
    if room > 0 && q != [] && f.s.outstanding < limit {
      var f' := Filled(ClaimFor(f.s, w), f.batch + [q[0]]);
      ClaimFields(f.s, w);
      TakesHead(f', w, limit, room - 1);
      OneTaken(f.batch, q, Least(room, |q|, Below(limit, f.s.outstanding)));
    }
  }

  lemma OneTaken(batch: seq<(Id, Payload)>, q: seq<(Id, Payload)>, m: nat)
    requires 1 <= m <= |q|
    ensures (batch + [q[0]]) + q[1..][..m - 1] == batch + q[..m] && q[1..][m - 1..] == q[m..]
  {
  }

  lemma FreshFields(job: Job, s: Sup)
    requires JobOk(job) && !Exists(s.tasks, s.next)
    ensures var u := Fresh(job, s);
            u.tasks.queue == s.tasks.queue + [(s.next, s.cur)] && u.next == s.next + 1 && u.outstanding == s.outstanding
  {
    hide Volume, Point;
  }

  lemma StandsAt(job: Job, s0: Sup, a0: Audit, f: Filled, w: Worker)
    requires FillInv(job, s0, a0, f, w)
    ensures JobOk(job) && f.s.next <= TotalTasks(job) && (f.s.hasMore <==> f.s.next < TotalTasks(job))
    ensures f.s.hasMore ==> f.s.cur == Point(job.lo, job.hi, f.s.next)
  {
    hide TasksInv, Recorded, Covered, Registered, Tallies, Counters, Loaded, Untouched, Pointed, Credit, Point, Volume;
  }

  // New tasks enter at the end of the queue, and the head of the queue is taken each time.
  lemma {:induction false} TakesNext(job: Job, s0: Sup, a0: Audit, f: Filled, w: Worker, limit: nat, room: nat)
    requires JobOk(job) && FillInv(job, s0, a0, f, w)
    ensures var m := Least(room, Below(TotalTasks(job), f.s.next), Below(limit, f.s.outstanding));
            TakeNew(job, f, w, limit, room).batch == f.batch + First(f.s.tasks.queue + NewTasks(job, f.s.next, m), m)
    decreases room
  {
    hide FillInv, ClaimFor, Fresh, TotalTasks, Point, NewTasks, First, Exists;
    StandsAt(job, s0, a0, f, w);
    var m := Least(room, Below(TotalTasks(job), f.s.next), Below(limit, f.s.outstanding));
    if room > 0 && f.s.hasMore && f.s.outstanding < limit {
      FreshFill(job, s0, a0, f, w);
      var g := Filled(Fresh(job, f.s), f.batch);
      TakenKeeps(job, s0, a0, g, w);
      FreshFields(job, f.s);
      ClaimFields(g.s, w);
      TakesNext(job, s0, a0, Taken(g, w), w, limit, room - 1);
      OneNew(job, f.batch, f.s.tasks.queue, f.s.next, m);
    } else {
      NoneNew(job, f.batch, f.s.tasks.queue, f.s.next);
    }
  }

  lemma OneNew(job: Job, batch: seq<(Id, Payload)>, q: seq<(Id, Payload)>, next: nat, m: nat)
    requires JobOk(job) && m >= 1
    ensures var g := q + [(next, Point(job.lo, job.hi, next))];
            (batch + [g[0]]) + First(g[1..] + NewTasks(job, next + 1, m - 1), m - 1)
            == batch + First(q + NewTasks(job, next, m), m)
  {
    hide Point;
    var x := (next, Point(job.lo, job.hi, next));
    var g := q + [x];
    var (all, rest) := (q + NewTasks(job, next, m), g[1..] + NewTasks(job, next + 1, m - 1));
    assert all == g + NewTasks(job, next + 1, m - 1) == [g[0]] + rest;
    assert all[..m] == [g[0]] + rest[..m - 1];
  }

  lemma NoneNew(job: Job, batch: seq<(Id, Payload)>, q: seq<(Id, Payload)>, next: nat)
    requires JobOk(job)
    ensures batch + First(q + NewTasks(job, next, 0), 0) == batch
  {
  }

  // How many replayed tasks and how many more a batch holds.
  function ReplayedPart(job: Job, s: Sup): nat
    requires JobOk(job) && s.roster != []
  {
    Least(ReplayShare(job, s), |s.tasks.queue|, Below(Max(4, |s.roster|) * job.batch, s.outstanding))
  }

  function AddedPart(job: Job, s: Sup): nat
    requires JobOk(job) && s.roster != []
  {
    Least(Below(BatchSize(job, s), ReplayedPart(job, s)), Below(Volume(job.lo, job.hi), s.next),
          Below(Max(4, |s.roster|) * job.batch, s.outstanding + ReplayedPart(job, s)))
  }

  // With any limit, batch size and share of replayed tasks.
  lemma LoadsInOrder(job: Job, s: Sup, a: Audit, w: Worker, limit: nat, size: nat, share: nat)
    requires SupInv(job, s, a) && JobOk(job) && w in s.index && share <= size
    ensures var r := Least(share, |s.tasks.queue|, Below(limit, s.outstanding));
            var m := Least(Below(size, r), Below(TotalTasks(job), s.next), Below(limit, s.outstanding + r));
            var f := TakeQueued(Filled(s, []), w, limit, share);
            && |f.batch| == r
            && TakeNew(job, f, w, limit, Below(size, r)).batch == First(s.tasks.queue + NewTasks(job, s.next, m), r + m)
  {
    hide SupInv, FillInv, TakeQueued, TakeNew, NewTasks, TotalTasks, First;
    FillStarts(job, s, a, w);
    var start := Filled(s, []);
    TakesHead(start, w, limit, share);
    TakeQueuedKeeps(job, s, a, start, w, limit, share);
    var f := TakeQueued(start, w, limit, share);
    var r := Least(share, |s.tasks.queue|, Below(limit, s.outstanding));
    TakesNext(job, s, a, f, w, limit, Below(size, r));
    var m := Least(Below(size, r), Below(TotalTasks(job), s.next), Below(limit, s.outstanding + r));
    TwoParts(s.tasks.queue, NewTasks(job, s.next, m), r, m);
  }

  // A batch is the head of the queue, extended at its end by new tasks: first replayed tasks up to a
  // worker's share, then one more for each new task that still fits into the batch and the task limit.
  lemma FillLoads(job: Job, s: Sup, a: Audit, w: Worker)
    requires SupInv(job, s, a) && JobOk(job) && w in s.index && s.roster != []
    ensures Fill(job, s, w).batch ==
              First(s.tasks.queue + NewTasks(job, s.next, AddedPart(job, s)), ReplayedPart(job, s) + AddedPart(job, s))
  {
    hide SupInv, TakeQueued, TakeNew, BatchSize, ReplayShare, NewTasks, Volume, First;
    FairReplayShare(job, s);
    LoadsInOrder(job, s, a, w, MaxMessages(s) * job.batch, BatchSize(job, s), ReplayShare(job, s));
  }

  lemma TwoParts<T>(q: seq<T>, rest: seq<T>, r: nat, m: nat)
    requires r <= |q| && m <= |rest|
    ensures ([] + q[..r]) + First(q[r..] + rest, m) == First(q + rest, r + m)
  {
    assert q[..r] + (q[r..] + rest)[..m] == (q + rest)[..r + m];
  }
}

// Acknowledgements, dispatch and late joins keep the supervisor's invariant.
module SupervisorSteps {
  import opened Collections
  import opened TaskState
  import opened Odometer
  import opened Supervisor
  import opened SupervisorInvariant

  // The invariant does not look at message counters, marks, the round-robin position or the error flag.
  lemma Unrelated(job: Job, s: Sup, a: Audit, stray: set<Id>, u: Sup)
    requires StrayInv(job, s, a, stray)
    requires u == s.(messages := u.messages, inFlight := u.inFlight, failed := u.failed, turn := u.turn, error := u.error)
    ensures StrayInv(job, u, a, stray)
  {
    hide TasksInv, Recorded, Covered, Tallies, Registered, Numbered, Counters;
  }

  // ----- acknowledgements

  lemma FinishTally(history: map<Worker, set<Id>>, sentTo: map<Id, Worker>, done: set<Id>, w: Worker, id: Id, v: Worker)
    requires Recorded(history, sentTo) && id in TasksOf(history, w) && id !in done
    ensures |(done + {id}) * TasksOf(history, v)| == |done * TasksOf(history, v)| + (if v == w then 1 else 0)
  {
    hide Recorded, TasksOf;
    if v == w {
      assert (done + {id}) * TasksOf(history, v) == done * TasksOf(history, v) + {id};
    } else {
      SentApart(history, sentTo, v, w);
      assert (done + {id}) * TasksOf(history, v) == done * TasksOf(history, v);
    }
  }

  lemma FinishCounted(s: Sup, sentTo: map<Id, Worker>, w: Worker, id: Id)
    requires Registered(s.roster, s.index, s.joining) && Recorded(s.history, sentTo)
    requires Counted(s.tasks.done, s.history, s.index, s.counts)
    requires w in s.index && id in Sent(s, w) && id !in s.tasks.done
    ensures Counted(s.tasks.done + {id}, s.history, s.index, CountUp(s.counts, s.index[w]))
  {
    hide Identity, Registered, Recorded, TasksOf;
    var (done, counts) := (s.tasks.done + {id}, CountUp(s.counts, s.index[w]));
    forall v | v in s.index ensures Lookup(counts, s.index[v], 0) == |done * TasksOf(s.history, v)| {
      FinishTally(s.history, sentTo, s.tasks.done, w, id, v);
      if v != w {
        OtherIndex(s.roster, s.index, s.joining, v, w);
      }
    }
  }

  lemma FinishNamed(index: map<Worker, nat>, counts: map<nat, nat>, w: Worker)
    requires Named(index, counts) && w in index && Identity(index[w]) == w
    ensures Named(index, CountUp(counts, index[w]))
  {
    hide Identity;
  }

  lemma FinishTallies(s: Sup, sentTo: map<Id, Worker>, w: Worker, id: Id)
    requires Registered(s.roster, s.index, s.joining) && Recorded(s.history, sentTo)
    requires Tallies(s.tasks.done, s.history, s.index, s.counts)
    requires w in s.index && id in Sent(s, w) && id !in s.tasks.done
    ensures Tallies(s.tasks.done + {id}, s.history, s.index, CountUp(s.counts, s.index[w]))
  {
    hide Registered, Recorded, Counted, Named, TasksOf, CountUp;
    IndexNamesWorker(s, w);
    FinishCounted(s, sentTo, w, id);
    FinishNamed(s.index, s.counts, w);
  }

  lemma IndexNamesWorker(s: Sup, w: Worker)
    requires Registered(s.roster, s.index, s.joining) && w in s.index
    ensures Identity(s.index[w]) == w
  {
  }

  lemma FinishCovered(t: Tasks, sentTo: map<Id, Worker>, id: Id, u: Tasks)
    requires Covered(t, sentTo, {}) && id in t.running
    requires u.running == t.running - {id} && u.done == t.done + {id} && u.owner == t.owner - {id}
    ensures Covered(u, sentTo, {})
  {
  }

  lemma FinishCounters(t: Tasks, outstanding: nat, acked: nat, lost: nat, id: Id, u: Tasks)
    requires Counters(t, outstanding, acked, lost) && id in t.running && id !in t.done
    requires u.running == t.running - {id} && u.done == t.done + {id}
    ensures outstanding > 0 && Counters(u, outstanding - 1, acked + 1, lost)
  {
    assert |t.running - {id}| == |t.running| - 1;
  }

  lemma FinishTasks(job: Job, s: Sup, a: Audit, w: Worker, id: Id)
    requires SupInv(job, s, a) && Accepts(s, w, id)
    ensures var t := Done(s.tasks, id);
            && TasksInv(t) && t.payloads == s.tasks.payloads && t.done == s.tasks.done + {id}
            && t.owner == s.tasks.owner - {id} && id !in s.tasks.done
            && Covered(t, a.sentTo, {}) && s.outstanding > 0 && Counters(t, s.outstanding - 1, s.acked + 1, a.lost)
  {
    hide TasksInv, Registered, Tallies, Recorded, Done, Numbered, Covered, Counters;
    DoneEffect(s.tasks, id);
    FinishCovered(s.tasks, a.sentTo, id, Done(s.tasks, id));
    FinishCounters(s.tasks, s.outstanding, s.acked, a.lost, id, Done(s.tasks, id));
  }

  lemma FinishCounts(job: Job, s: Sup, a: Audit, w: Worker, id: Id)
    requires SupInv(job, s, a) && Accepts(s, w, id) && id !in s.tasks.done
    ensures Tallies(s.tasks.done + {id}, s.history, s.index, CountUp(s.counts, s.index[w]))
  {
    hide TasksInv, Registered, Tallies, Recorded, Numbered, Counters, CountUp, Covered;
    SentToOwner(s, a, w, id);
    FinishTallies(s, a.sentTo, w, id);
  }

  // An accepted acknowledgement moves one task from running to done and never meets a zero counter.
  lemma FinishKeeps(job: Job, s: Sup, a: Audit, w: Worker, id: Id)
    requires SupInv(job, s, a) && Accepts(s, w, id)
    ensures s.outstanding > 0
    ensures SupInv(job, Finish(s, w, id).(outstanding := s.outstanding - 1, acked := s.acked + 1), a)
    ensures Finish(s, w, id).tasks.done == s.tasks.done + {id} && id !in s.tasks.done
    ensures Finish(s, w, id).tasks.owner == s.tasks.owner - {id}
  {
    hide TasksInv, Registered, Tallies, Recorded, Done, Numbered, Covered, Counters, CountUp;
    FinishTasks(job, s, a, w, id);
    FinishCounts(job, s, a, w, id);
  }

  lemma SentToOwner(s: Sup, a: Audit, w: Worker, id: Id)
    requires Recorded(s.history, a.sentTo) && Covered(s.tasks, a.sentTo, {}) && Accepts(s, w, id)
    ensures id in Sent(s, w)
  {
    assert a.sentTo[id] == w;
  }

  lemma AckKeeps(job: Job, s: Sup, a: Audit, w: Worker, id: Id)
    requires SupInv(job, s, a) && !s.error
    ensures var u := Ack(s, w, id);
            && (u.error <==> Accepts(s, w, id) && s.messages == 0)
            && (!u.error ==> SupInv(job, u, a))
            && u.tasks.done == s.tasks.done + (if Accepts(s, w, id) then {id} else {})
  {
    hide StrayInv, Done, CountUp;
    if Accepts(s, w, id) {
      FinishKeeps(job, s, a, w, id);
      var v := Finish(s, w, id).(outstanding := s.outstanding - 1, acked := s.acked + 1);
      if s.messages > 0 {
        Unrelated(job, v, a, {}, Ack(s, w, id));
      }
    }
  }

  lemma AckTokenKeeps(job: Job, s: Sup, a: Audit, w: Worker, id: Id)
    requires SupInv(job, s, a) && !s.error
    ensures !AckToken(s, w, id).error && SupInv(job, AckToken(s, w, id), a)
  {
    hide StrayInv, Done, CountUp;
    if Accepts(s, w, id) {
      FinishKeeps(job, s, a, w, id);
    }
  }

  lemma {:induction false} AckTokensKeep(job: Job, s: Sup, a: Audit, w: Worker, ids: seq<Id>)
    requires SupInv(job, s, a) && !s.error
    ensures !AckTokens(s, w, ids).error && SupInv(job, AckTokens(s, w, ids), a)
  {
    hide StrayInv, AckToken;
    if ids != [] {
      AckTokensKeep(job, s, a, w, ids[..|ids| - 1]);
      AckTokenKeeps(job, AckTokens(s, w, ids[..|ids| - 1]), a, w, ids[|ids| - 1]);
    }
  }

  lemma AckBKeeps(job: Job, s: Sup, a: Audit, w: Worker, ids: seq<Id>)
    requires SupInv(job, s, a) && !s.error
    ensures var u := AckB(s, w, ids);
            && (u.error <==> w in s.index && s.messages == 0)
            && (!u.error ==> SupInv(job, u, a))
  {
    hide StrayInv, AckTokens;
    if w in s.index && s.messages > 0 {
      var v := s.(messages := s.messages - 1, inFlight := OneLess(s.inFlight, w));
      Unrelated(job, s, a, {}, v);
      AckTokensKeep(job, v, a, w, ids);
    }
  }

  // ----- filling a batch

  function Credit(a: Audit, ids: set<Id>, w: Worker): Audit {
    a.(sentTo := a.sentTo + map id | id in ids :: w)
  }

  lemma ClaimRecorded(history: map<Worker, set<Id>>, sentTo: map<Id, Worker>, w: Worker, id: Id)
    requires Recorded(history, sentTo) && id !in sentTo
    ensures Recorded(history[w := TasksOf(history, w) + {id}], sentTo[id := w])
  {
    var (h, to) := (history[w := TasksOf(history, w) + {id}], sentTo[id := w]);
    forall v, x | v in h && x in h[v] ensures x in to && to[x] == v {
      if v != w || x != id {
        assert v in history && x in history[v];
      }
    }
    forall x | x in to ensures to[x] in h && x in h[to[x]] {
      if x != id {
        assert x in history[sentTo[x]];
      }
    }
  }

  lemma ClaimTally(done: set<Id>, history: map<Worker, set<Id>>, w: Worker, id: Id, v: Worker)
    requires id !in done
    ensures done * TasksOf(history[w := TasksOf(history, w) + {id}], v) == done * TasksOf(history, v)
  {
  }

  lemma ClaimTallies(done: set<Id>, history: map<Worker, set<Id>>, index: map<Worker, nat>, counts: map<nat, nat>, w: Worker, id: Id)
    requires Tallies(done, history, index, counts) && id !in done && w in index
    ensures Tallies(done, history[w := TasksOf(history, w) + {id}], index, counts)
  {
    hide Lookup, Identity, TasksOf, Named;
    var h := history[w := TasksOf(history, w) + {id}];
    forall v | v in index ensures Lookup(counts, index[v], 0) == |done * TasksOf(h, v)| {
      ClaimTally(done, history, w, id, v);
    }
  }

  lemma ClaimCovered(t: Tasks, sentTo: map<Id, Worker>, w: Worker, id: Id, p: Payload, u: Tasks)
    requires Covered(t, sentTo, {})
    requires u.running == t.running[id := p] && u.owner == t.owner[id := w] && u.done == t.done
    ensures Covered(u, sentTo[id := w], {})
  {
    assert u.running.Keys == t.running.Keys + {id};
    assert sentTo[id := w].Keys == sentTo.Keys + {id};
  }

  lemma ClaimCounters(t: Tasks, outstanding: nat, acked: nat, lost: nat, id: Id, p: Payload, u: Tasks)
    requires Counters(t, outstanding, acked, lost) && id !in t.running
    requires u.running == t.running[id := p] && u.done == t.done
    ensures Counters(u, outstanding + 1, acked, lost)
  {
    assert |t.running[id := p]| == |t.running| + 1;
  }

  lemma NotSent(t: Tasks, sentTo: map<Id, Worker>, id: Id)
    requires Covered(t, sentTo, {}) && id !in t.running && id !in t.done
    ensures id !in sentTo
  {
  }

  lemma PayloadOf(job: Job, s: Sup, id: Id)
    requires JobOk(job) && Numbered(job, s.tasks.payloads, s.next, s.hasMore, s.cur)
    requires TasksInv(s.tasks) && id in s.tasks.pending
    ensures id in s.tasks.payloads && s.tasks.payloads[id] == Point(job.lo, job.hi, id)
  {
    hide Point, Volume;
  }

  lemma ClaimForKeeps(job: Job, s: Sup, a: Audit, w: Worker)
    requires SupInv(job, s, a) && s.tasks.queue != [] && w in s.index
    ensures var (id, p) := s.tasks.queue[0];
            && SupInv(job, ClaimFor(s, w), a.(sentTo := a.sentTo[id := w]))
            && p == Point(job.lo, job.hi, id)
  {
    hide TasksInv, Registered, Tallies, Recorded, Claim, Numbered, Covered, Counters, Point, Volume, TasksOf;
    var (id, p) := s.tasks.queue[0];
    ClaimEffect(s.tasks, w);
    PayloadOf(job, s, id);
    NotSent(s.tasks, a.sentTo, id);
    ClaimRecorded(s.history, a.sentTo, w, id);
    ClaimTallies(s.tasks.done, s.history, s.index, s.counts, w, id);
    ClaimCovered(s.tasks, a.sentTo, w, id, p, Claim(s.tasks, w));
    ClaimCounters(s.tasks, s.outstanding, s.acked, a.lost, id, p, Claim(s.tasks, w));
  }

  lemma FreshNumbered(job: Job, payloads: map<Id, Payload>, next: nat, cur: Coords, cur': Coords)
    requires JobOk(job) && Numbered(job, payloads, next, true, cur)
    requires next + 1 < TotalTasks(job) ==> cur' == Point(job.lo, job.hi, next + 1)
    ensures next !in payloads
    ensures Numbered(job, payloads[next := cur], next + 1, next + 1 < TotalTasks(job), cur')
  {
    hide Point, Volume;
  }

  lemma FreshKeeps(job: Job, s: Sup, a: Audit)
    requires SupInv(job, s, a) && s.hasMore
    ensures SupInv(job, Fresh(job, s), a)
    ensures Fresh(job, s).tasks.queue == s.tasks.queue + [(s.next, s.cur)] && !Exists(s.tasks, s.next)
  {
    hide TasksInv, Registered, Tallies, Recorded, Add, Point, Volume, Numbered;
    FreshNumbered(job, s.tasks.payloads, s.next, s.cur, Fresh(job, s).cur);
    AddEffect(s.tasks, s.next, s.cur);
  }

  // The tasks of a batch have left the queue and run on w; nothing else has moved.
  ghost predicate Loaded(t0: Tasks, t: Tasks, batch: seq<(Id, Payload)>, w: Worker) {
    && UniqueIds(batch) && QueueIds(batch) !! t0.running.Keys
    && t.running.Keys == t0.running.Keys + QueueIds(batch)
    && t.done == t0.done
    && t.owner == t0.owner + (map id | id in QueueIds(batch) :: w)
  }

  ghost predicate Pointed(job: Job, batch: seq<(Id, Payload)>)
    requires JobOk(job)
  {
    forall e :: e in batch ==> e.1 == Point(job.lo, job.hi, e.0)
  }

  // What filling a batch for worker w has done so far, starting from s0.
  ghost predicate FillInv(job: Job, s0: Sup, a0: Audit, f: Filled, w: Worker) {
    && SupInv(job, f.s, Credit(a0, QueueIds(f.batch), w)) && w in f.s.index
    && Loaded(s0.tasks, f.s.tasks, f.batch, w) && Pointed(job, f.batch)
    && f.s.outstanding == s0.outstanding + |f.batch|
    && Untouched(s0, f.s)
  }

  predicate Untouched(s: Sup, u: Sup) {
    && u.roster == s.roster && u.index == s.index && u.failed == s.failed && u.counts == s.counts
    && u.inFlight == s.inFlight && u.messages == s.messages && u.acked == s.acked && u.turn == s.turn
    && u.joining == s.joining && u.error == s.error
  }

  function Taken(f: Filled, w: Worker): Filled
    requires f.s.tasks.queue != []
  {
    Filled(ClaimFor(f.s, w), f.batch + [f.s.tasks.queue[0]])
  }

  lemma CreditMore(a: Audit, ids: set<Id>, id: Id, w: Worker)
    ensures Credit(a, ids + {id}, w) == Credit(a, ids, w).(sentTo := Credit(a, ids, w).sentTo[id := w])
  {
    assert Credit(a, ids + {id}, w).sentTo == Credit(a, ids, w).sentTo[id := w];
  }

  lemma OwnMore(owner: map<Id, Worker>, ids: set<Id>, id: Id, w: Worker)
    ensures owner + (map x | x in ids + {id} :: w) == (owner + (map x | x in ids :: w))[id := w]
  {
  }

  lemma LoadMore(t0: Tasks, t: Tasks, batch: seq<(Id, Payload)>, w: Worker)
    requires TasksInv(t) && t.queue != [] && Loaded(t0, t, batch, w)
    ensures Loaded(t0, Claim(t, w), batch + [t.queue[0]], w)
  {
    hide TasksInv, Claim, QueueIds, UniqueIds, Loaded;
    ClaimEffect(t, w);
    LoadOne(t0, t, Claim(t, w), batch, t.queue[0], w);
  }

  lemma LoadOne(t0: Tasks, t: Tasks, u: Tasks, batch: seq<(Id, Payload)>, e: (Id, Payload), w: Worker)
    requires Loaded(t0, t, batch, w) && e.0 !in t.running
    requires u.running == t.running[e.0 := e.1] && u.done == t.done && u.owner == t.owner[e.0 := w]
    ensures Loaded(t0, u, batch + [e], w)
  {
    hide QueueIds, UniqueIds;
    OwnMore(t0.owner, QueueIds(batch), e.0, w);
    AppendIds(batch, e);
  }

  lemma TakenKeeps(job: Job, s0: Sup, a0: Audit, f: Filled, w: Worker)
    requires FillInv(job, s0, a0, f, w) && f.s.tasks.queue != []
    ensures FillInv(job, s0, a0, Taken(f, w), w)
  {
    hide SupInv, TasksInv, Claim, Point, Volume, Loaded, QueueIds, Pointed;
    var ids, e := QueueIds(f.batch), f.s.tasks.queue[0];
    ClaimForKeeps(job, f.s, Credit(a0, ids, w), w);
    TasksOfInv(job, f.s, Credit(a0, ids, w));
    LoadMore(s0.tasks, f.s.tasks, f.batch, w);
    CreditMore(a0, ids, e.0, w);
    AppendIds(f.batch, e);
    PointMore(job, f.batch, e);
  }

  lemma PointMore(job: Job, batch: seq<(Id, Payload)>, e: (Id, Payload))
    requires JobOk(job) && Pointed(job, batch) && e.1 == Point(job.lo, job.hi, e.0)
    ensures Pointed(job, batch + [e])
  {
    hide Point, Volume;
  }

  lemma TasksOfInv(job: Job, s: Sup, a: Audit)
    requires SupInv(job, s, a)
    ensures TasksInv(s.tasks) && JobOk(job) && s.outstanding == |s.tasks.running| + a.lost
    ensures s.hasMore <==> s.next < TotalTasks(job)
  {
    hide TasksInv, Recorded, Covered, Tallies, Registered, Point, Volume;
  }

  lemma {:induction false} TakeQueuedKeeps(job: Job, s0: Sup, a0: Audit, f: Filled, w: Worker, limit: nat, room: nat)
    requires FillInv(job, s0, a0, f, w)
    ensures FillInv(job, s0, a0, TakeQueued(f, w, limit, room), w)
    ensures |TakeQueued(f, w, limit, room).batch| <= |f.batch| + room
    ensures room > 0 && f.s.tasks.queue != [] && f.s.outstanding < limit ==>
              |TakeQueued(f, w, limit, room).batch| > |f.batch|
    ensures f.s.tasks.queue == [] ==> TakeQueued(f, w, limit, room) == f
    ensures TakeQueued(f, w, limit, room).s.hasMore == f.s.hasMore
    decreases room
  {
    hide FillInv, Claim;
    if room > 0 && f.s.tasks.queue != [] && f.s.outstanding < limit {
      TakenKeeps(job, s0, a0, f, w);
      TakeQueuedKeeps(job, s0, a0, Taken(f, w), w, limit, room - 1);
    }
  }

  lemma FreshFill(job: Job, s0: Sup, a0: Audit, f: Filled, w: Worker)
    requires FillInv(job, s0, a0, f, w) && f.s.hasMore
    ensures FillInv(job, s0, a0, Filled(Fresh(job, f.s), f.batch), w)
    ensures Fresh(job, f.s).tasks.queue != [] && !Exists(f.s.tasks, f.s.next)
  {
    hide SupInv, TasksInv, Add, Point, Volume, QueueIds, UniqueIds, Loaded, Pointed;
    var a := Credit(a0, QueueIds(f.batch), w);
    TasksOfInv(job, f.s, a);
    FreshKeeps(job, f.s, a);
    AddLoaded(s0.tasks, f.s.tasks, f.batch, w, f.s.next, f.s.cur);
  }

  lemma AddLoaded(t0: Tasks, t: Tasks, batch: seq<(Id, Payload)>, w: Worker, id: Id, p: Payload)
    requires Loaded(t0, t, batch, w)
    ensures Loaded(t0, Add(t, id, p), batch, w)
  {
    hide UniqueIds, QueueIds;
  }

  lemma {:induction false} TakeNewKeeps(job: Job, s0: Sup, a0: Audit, f: Filled, w: Worker, limit: nat, room: nat)
    requires JobOk(job) && FillInv(job, s0, a0, f, w)
    ensures FillInv(job, s0, a0, TakeNew(job, f, w, limit, room), w)
    ensures |f.batch| <= |TakeNew(job, f, w, limit, room).batch| <= |f.batch| + room
    ensures room > 0 && f.s.hasMore && f.s.outstanding < limit ==>
              |TakeNew(job, f, w, limit, room).batch| > |f.batch|
    decreases room
  {
    hide FillInv, ClaimFor, Fresh;
    if room > 0 && f.s.hasMore && f.s.outstanding < limit {
      FreshFill(job, s0, a0, f, w);
      var g := Filled(Fresh(job, f.s), f.batch);
      TakenKeeps(job, s0, a0, g, w);
      TakeNewKeeps(job, s0, a0, Taken(g, w), w, limit, room - 1);
    }
  }

  lemma FillStarts(job: Job, s: Sup, a: Audit, w: Worker)
    requires SupInv(job, s, a) && w in s.index
    ensures FillInv(job, s, a, Filled(s, []), w)
  {
    hide SupInv, Point, Volume;
    assert Credit(a, {}, w).sentTo == a.sentTo;
    assert s.tasks.running.Keys + {} == s.tasks.running.Keys;
    NoOwners(s.tasks.owner, w);
  }

  lemma NoOwners(owner: map<Id, Worker>, w: Worker)
    ensures owner + (map id | id in QueueIds([]) :: w) == owner
  {
  }

  lemma BatchSizeBound(job: Job, s: Sup)
    requires JobOk(job) && s.roster != []
    ensures 1 <= BatchSize(job, s) <= job.batch && 1 <= ReplayShare(job, s)
  {
    hide Volume;
  }

  // A filled batch holds distinct tasks, each with the point its id stands for, and at most as many
  // as the batch size; there is at least one whenever work is left and the task limit is not reached.
  lemma FillKeeps(job: Job, s: Sup, a: Audit, w: Worker)
    requires SupInv(job, s, a) && w in s.index && s.roster != []
    ensures var f := Fill(job, s, w);
            && FillInv(job, s, a, f, w)
            && |f.batch| <= job.batch
            && ((s.hasMore || s.tasks.queue != []) && s.outstanding < MaxMessages(s) * job.batch ==> f.batch != [])
  {
    hide SupInv, FillInv, TakeQueued, TakeNew, BatchSize, ReplayShare, MaxMessages;
    TasksOfInv(job, s, a);
    FillStarts(job, s, a, w);
    BatchSizeBound(job, s);
    var limit, size := MaxMessages(s) * job.batch, BatchSize(job, s);
    var room := Min(size, ReplayShare(job, s));
    TakeQueuedKeeps(job, s, a, Filled(s, []), w, limit, room);
    var f := TakeQueued(Filled(s, []), w, limit, room);
    TakeNewKeeps(job, s, a, f, w, limit, if |f.batch| < size then size - |f.batch| else 0);
  }

  // At the task limit a pass takes nothing: the state it leaves is the state it found.
  lemma FillAtLimit(job: Job, s: Sup, w: Worker)
    requires JobOk(job) && s.roster != [] && s.outstanding >= MaxMessages(s) * job.batch
    ensures Fill(job, s, w) == Filled(s, [])
  {
    hide BatchSize, ReplayShare;
  }
}

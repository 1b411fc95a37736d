// What holds in every state that supervisor, channels and workers can reach together.
module ClusterTheorems {
  import opened Collections
  import opened TaskState
  import opened Odometer
  import opened Supervisor
  import opened SupervisorInvariant
  import opened SupervisorSteps
  import opened SupervisorDispatch
  import opened SupervisorRuns
  import opened Flight
  import opened Workers
  import opened Cluster
  import opened MainLoop
  import opened MainLoopTheorems
  import Wire

  // A session from its first definition on, and everything that happened in it since.
  datatype Session = Session(base: Cluster, job: Job, order: Order, gotDef: set<Worker>, gotIds: set<Worker>, moves: seq<Move>)

  ghost function First(h: Session): Cluster { DefineStep(h.base, h.job, h.order, h.gotDef, h.gotIds) }

  ghost predicate Legal(h: Session) {
    CanStart(h.base, h.job, h.order, h.gotDef, h.gotIds) && LegalMoves(First(h), h.moves)
  }

  ghost function End(h: Session): Cluster
    requires Legal(h)
  {
    RunMoves(First(h), h.moves)
  }

  // The tasks in failed sends of the current definition.
  ghost function LostTasksOf(h: Session): nat
    requires Legal(h)
  {
    LostSince(First(h), h.moves, 0)
  }

  lemma Reached(h: Session) returns (a: Audit)
    requires Legal(h) && !End(h).s.error
    ensures Inv(End(h), a) && a.lost == LostTasksOf(h) && JobOk(End(h).job)
  {
    hide Inv, CanStart, LegalMoves, RunMoves, LostSince, DefineStep, JobOk;
    StartKeeps(h.base, h.job, h.order, h.gotDef, h.gotIds);
    a := MovesKeep(First(h), Audit(0, map[]), h.moves);
    JobOfInv(End(h), a);
  }

  // A finished task: its one holder is registered and has run Process on the task's point, and did so
  // under the definition in force exactly if it was told of it.
  ghost predicate RestsOn(c: Cluster, id: Id, w: Worker)
    requires JobOk(c.job)
  {
    && w in c.s.index && w in c.peers && id in Sent(c.s, w)
    && (forall v :: id in Sent(c.s, v) ==> v == w)
    && Worked(c.job.lo, c.job.hi, c.order, Told(c, w), c.peers[w].log, id)
  }

  lemma HolderWorked(c: Cluster, a: Audit, id: Id) returns (w: Worker)
    requires Inv(c, a) && id in c.s.tasks.done
    ensures JobOk(c.job) && RestsOn(c, id, w)
  {
    hide StrayInv, FlightInv, Unsent, Worked, Shaking, Outsider, InStep, QueueOnPoint, InForce, Underway;
    DoneHolder(c.job, c.s, a, {}, id);
    w :| w in c.s.index && id in Sent(c.s, w) && forall v :: id in Sent(c.s, v) ==> v == w;
    assert MemberOf(c, w) && id in DoneOf(c.s, w);
  }

  // Every finished task was really processed, on its point, by the one registered worker that holds it;
  // no result rests on a worker that was taken off.
  lemma EveryResultIsReal(h: Session, id: Id) returns (w: Worker)
    requires Legal(h) && !End(h).s.error && id in End(h).s.tasks.done
    ensures JobOk(End(h).job) && RestsOn(End(h), id, w)
  {
    hide Inv, Legal, End, RestsOn, LostTasksOf;
    var a := Reached(h);
    w := HolderWorked(End(h), a, id);
  }

  // When the dispatcher returns, it has finished every point of the box, each on a registered worker.
  lemma SuccessIsComplete(h: Session, id: Id) returns (w: Worker)
    requires Legal(h) && !End(h).s.error && LoopEnds(End(h).s)
    ensures JobOk(End(h).job) && Returns(End(h).s) && End(h).s.acked == Volume(End(h).job.lo, End(h).job.hi)
    ensures LostTasksOf(h) == 0
    ensures id < Volume(End(h).job.lo, End(h).job.hi) ==> RestsOn(End(h), id, w)
  {
    hide Inv, Legal, End, RestsOn, LostTasksOf, Volume, Identity, LoopEnds, Returns;
    var a := Reached(h);
    EndedCluster(End(h), a);
    w := Identity(0);
    if id < Volume(End(h).job.lo, End(h).job.hi) {
      w := HolderWorked(End(h), a, id);
    }
  }

  lemma EndedCluster(c: Cluster, a: Audit)
    requires Inv(c, a) && !c.s.error && LoopEnds(c.s)
    ensures JobOk(c.job) && Returns(c.s) && c.s.acked == Volume(c.job.lo, c.job.hi) && a.lost == 0
    ensures forall id: Id :: id in c.s.tasks.done <==> id < Volume(c.job.lo, c.job.hi)
  {
    hide Inv, StrayInv, FlightInv, Volume;
    InvParts(c, a);
    EndedState(c.job, c.s, a);
  }

  lemma InvParts(c: Cluster, a: Audit)
    requires Inv(c, a)
    ensures JobOk(c.job) && SupInv(c.job, c.s, a) && FlightInv(c.job, c.s, c.flight)
    ensures !c.job.tcp ==> c.s.failed == {}
  {
    hide StrayInv, FlightInv, Peers, JobOk;
  }

  // Results from a registered worker are never turned down and never find a counter at zero, whatever
  // was replayed, lost or answered before.
  lemma ResultsAreAccepted(h: Session, w: Worker)
    requires Legal(h) && !End(h).s.error && w in End(h).s.index && w in End(h).peers
    requires End(h).peers[w].outbox != [] && End(h).peers[w].outbox[0].Answer?
    ensures var (s, ids) := (End(h).s, End(h).peers[w].outbox[0].ids);
            var u := Answered(s, w, ids);
            && !u.error && s.messages > 0 && ToSet(ids) <= OwnedBy(s.tasks, w)
            && u.tasks.done == s.tasks.done + ToSet(ids)
  {
    hide Inv, Legal, End, LostTasksOf, OwnedBy, Answered;
    var a := Reached(h);
    AnswerHeardEffect(End(h), a, w);
  }

  // While no send of this definition has failed, the tasks outstanding are the running ones, at most
  // as many as the unanswered messages can carry, and a pass of the dispatch loop that finds a worker
  // sends at least one task in a message of its own, so the loop ends at the message limit at the latest.
  lemma DispatchMovesOn(h: Session)
    requires Legal(h) && !End(h).s.error && LostTasksOf(h) == 0
    ensures JobOk(End(h).job)
    ensures End(h).s.outstanding == |End(h).s.tasks.running| <= End(h).s.messages * End(h).job.batch
    ensures CanDispatch(End(h).s) && Pick(End(h).job, End(h).s).found ==>
              && PassBatch(End(h).job, End(h).s) != [] && !Dispatch(End(h).job, End(h).s, true).error
              && Dispatch(End(h).job, End(h).s, true).messages == End(h).s.messages + 1 <= MaxMessages(End(h).s)
  {
    hide Inv, Legal, End, LostTasksOf, StrayInv, OneFlight, OwnedBy, SumOf, Pick, PassBatch, Dispatch, JobOk;
    var a := Reached(h);
    var c := End(h);
    InvParts(c, a);
    OutstandingBound(c.job, c.s, a, c.flight);
    TasksOfInv(c.job, c.s, a);
    if CanDispatch(c.s) {
      PassMakesProgress(c.job, c.s, a, c.flight);
    }
  }

  lemma CapOf(job: Job, s: Sup, flight: map<Worker, Batches>, w: Worker)
    requires FlightInv(job, s, flight) && w in s.index
    ensures job.tcp ==> Unanswered(s, w) <= job.cap
    ensures |OwnedBy(s.tasks, w)| <= Unanswered(s, w) * job.batch
  {
    hide OwnedBy, SumOf;
    assert OneFlight(job, OwnedBy(s.tasks, w), Unanswered(s, w), FlightOf(flight, w));
    OwnedBound(job, OwnedBy(s.tasks, w), Unanswered(s, w), FlightOf(flight, w));
  }

  // A worker's running tasks number at most its unanswered messages times the batch size, and no TCP
  // worker has more messages than it may, with or without failed sends.
  lemma LoadIsBounded(h: Session, w: Worker)
    requires Legal(h) && !End(h).s.error && w in End(h).s.index
    ensures |OwnedBy(End(h).s.tasks, w)| <= Unanswered(End(h).s, w) * End(h).job.batch
    ensures End(h).job.tcp ==> Unanswered(End(h).s, w) <= End(h).job.cap
  {
    hide Inv, Legal, End, LostTasksOf, FlightInv, OwnedBy;
    var a := Reached(h);
    InvParts(End(h), a);
    CapOf(End(h).job, End(h).s, End(h).flight, w);
  }

  // ----- what the main loop receives

  // A reply as the message it is for the main loop; without its INIT a READY has no effect.
  function Message(reply: Reply, w: Worker, i: nat, initSent: bool): Incoming {
    match reply
    case Hello => if initSent then ReadyFrom(w, i) else Unconcerning
    case Inited => InitAckFrom(w)
    case Answer(ids) => AnswerFrom(w, ids)
    case Goodbye => ShutdownOf(w)
    case Trouble => ErrOrMalformed
  }

  // Hearing a reply in the session is hearing that message in the main loop.
  lemma HeardAsMessage(c: Cluster, w: Worker, i: nat, initSent: bool, defSent: bool, idsSent: bool)
    requires CanMove(c, HearMove(w, i, initSent, defSent, idsSent))
    requires c.peers[w].outbox[0].Hello? ==> c.job.tcp
    ensures HearStep(c, w, i, initSent, defSent, idsSent).s ==
              Hear(c.job, c.s, Message(c.peers[w].outbox[0], w, i, initSent))
  {
    hide Answered, Joined, AnswerHeard, Ready, InitAck, Lost, Identity, Heard, Post, AnswerFrom, Hear;
    var (s, m) := (c.s, Message(c.peers[w].outbox[0], w, i, initSent));
    HeardParts(c, w, defSent, idsSent);
    match c.peers[w].outbox[0]
    case Answer(ids) => HearAnswers(c.job, s, w, ids);
    case _ => HearOthers(c.job, s, w, i);
  }

  lemma HeardParts(c: Cluster, w: Worker, defSent: bool, idsSent: bool)
    requires w in c.peers && c.peers[w].outbox != []
    ensures Joined(c, w, defSent, idsSent).s == InitAck(c.s, w)
    ensures c.peers[w].outbox[0].Answer? ==> var ids := c.peers[w].outbox[0].ids; AnswerHeard(c, w, ids).s == Answered(c.s, w, ids)
    ensures w !in c.s.joining ==> InitAck(c.s, w) == c.s
  {
    hide Answered, Heard, Post, Knows, Announce, FlightOf;
  }

  lemma HearOthers(job: Job, s: Sup, w: Worker, i: nat)
    requires w == Identity(i)
    ensures job.tcp ==> Hear(job, s, ReadyFrom(w, i)) == if w in s.index || w in s.joining then s else Ready(s, w, i)
    ensures Hear(job, s, InitAckFrom(w)) == if job.tcp then InitAck(s, w) else s
    ensures Hear(job, s, ShutdownOf(w)) == Lost(s, w, job.tcp)
    ensures Hear(job, s, ErrOrMalformed) == s.(error := true) && Hear(job, s, Unconcerning) == s
  {
    hide InitAck, Lost, Identity;
  }

  // ----- what is on the wire

  // With bounds in the range of int and task ids in that of size_t, the texts of the frames carry the next
  // message: every task reaches the worker with its id and its point, and its id comes back.
  lemma MessageRoundTrip(h: Session)
    requires Legal(h) && !End(h).s.error && CanDispatch(End(h).s) && JobOk(End(h).job)
    requires IntBounds(End(h).job) && Volume(End(h).job.lo, End(h).job.hi) <= Wire.SIZE_LIMIT
    ensures var (c, batch) := (End(h), PassBatch(End(h).job, End(h).s));
            Wire.Survives(batch) && forall e :: e in batch ==> e.1 == Point(c.job.lo, c.job.hi, e.0)
  {
    hide Inv, Legal, End, LostTasksOf, PassBatch, Volume, Point, Wire.Survives, IntBounds;
    var a := Reached(h);
    var c := End(h);
    InvParts(c, a);
    BatchInBox(c.job, c.s, a);
    forall e | e in PassBatch(c.job, c.s) ensures forall x :: x in e.1 ==> Wire.INT_MIN <= x <= Wire.INT_MAX {
      BoxInts(c.job, e.1);
    }
    Wire.BatchSurvives(PassBatch(c.job, c.s));
  }

  predicate IntBounds(job: Job) {
    && (forall k :: 0 <= k < |job.lo| ==> Wire.INT_MIN <= job.lo[k])
    && (forall k :: 0 <= k < |job.hi| ==> job.hi[k] <= Wire.INT_MAX)
  }

  lemma BoxInts(job: Job, c: Coords)
    requires InBox(job.lo, job.hi, c) && IntBounds(job)
    ensures forall x :: x in c ==> Wire.INT_MIN <= x <= Wire.INT_MAX
  {
    forall x | x in c ensures Wire.INT_MIN <= x <= Wire.INT_MAX {
      var k :| 0 <= k < |c| && c[k] == x;
      assert job.lo[k] <= c[k] <= job.hi[k];
    }
  }

  // The tasks of a batch are tasks of the box, each with its point.
  lemma BatchInBox(job: Job, s: Sup, a: Audit)
    requires SupInv(job, s, a) && JobOk(job) && s.roster != []
    ensures forall e :: e in PassBatch(job, s) ==>
              e.0 < Volume(job.lo, job.hi) && e.1 == Point(job.lo, job.hi, e.0) && InBox(job.lo, job.hi, e.1) && e.1 != []
  {
    hide StrayInv, Fill, FillInv, Pick, Volume, Point, QueueIds;
    PickIs(job, s);
    var (c, u) := (Pick(job, s), s.(turn := Pick(job, s).turn));
    Unrelated(job, s, a, {}, u);
    if c.found {
      RosterRegistered(job, s, a, {}, c.worker);
      FillKeeps(job, u, a, c.worker);
      var f := Fill(job, u, c.worker);
      FillParts(job, u, a, f, c.worker);
      BatchRuns(u.tasks, f.s.tasks, f.batch, c.worker);
      forall e | e in f.batch
        ensures e.0 < Volume(job.lo, job.hi) && InBox(job.lo, job.hi, Point(job.lo, job.hi, e.0))
      {
        assert e.0 in QueueIds(f.batch) by { InQueueIds(f.batch, e); }
        RunningInBox(job, f.s, Credit(a, QueueIds(f.batch), c.worker), e.0);
        RankOfPoint(job.lo, job.hi, e.0);
      }
    }
  }

  lemma InQueueIds(batch: seq<(Id, Payload)>, e: (Id, Payload))
    requires e in batch
    ensures e.0 in QueueIds(batch)
  {
  }

  lemma RunningInBox(job: Job, s: Sup, a: Audit, id: Id)
    requires SupInv(job, s, a) && id in s.tasks.running
    ensures JobOk(job) && id < Volume(job.lo, job.hi)
  {
    hide QueueIndexed, PayloadsAgree, OwnersInverse, Recorded, Covered, Registered, Tallies, Counters, Point, Volume;
  }

  // ----- definitions

  // The task a worker step runs Process on, if it does.
  function TaskRun(p: Peer, act: Act): Option<(Id, Payload)>
    requires Able(p, act)
  {
    match act
    case DoTake(_) => if Queue(p)[0].Work? && |Queue(p)[0].batch| == 1 then Some(Queue(p)[0].batch[0]) else None
    case DoNext(_) => Some(p.bench.value.batch[p.bench.value.finished])
    case _ => None
  }

  lemma MemberRuns(lo: Coords, hi: Coords, o: Order, synced: bool, p: Peer, f: Batches, done: set<Id>, act: Act)
    requires IsBox(lo, hi) && Member(lo, hi, o, synced, p, f, done) && Able(p, act) && TaskRun(p, act).Some?
    ensures var (id, coords) := TaskRun(p, act).value;
            coords == Point(lo, hi, id) && (synced <==> Matches(p.have, o))
  {
    hide AllWorked, InStep, Point;
    if act.DoTake? {
      assert Queue(p)[0] in Queue(p);
    }
  }

  // Whatever a registered worker runs, it runs on the point of the task, and exactly if it was told the
  // definition, under the name and the ids the supervisor is dispatching: over successive definitions,
  // for workers that were there from the start and for those that joined late.
  lemma RunsUnderTheDefinition(h: Session, w: Worker, act: Act)
    requires Legal(h) && !End(h).s.error && w in End(h).s.index && w in End(h).peers
    requires Able(End(h).peers[w], act) && TaskRun(End(h).peers[w], act).Some?
    ensures JobOk(End(h).job)
    ensures var (c, (id, coords)) := (End(h), TaskRun(End(h).peers[w], act).value);
            && coords == Point(c.job.lo, c.job.hi, id)
            && (Told(c, w) <==> Matches(c.peers[w].have, c.order))
  {
    hide Inv, Legal, End, LostTasksOf, Matches, TaskRun, Point;
    var a := Reached(h);
    MemberIs(End(h), a, w);
    var c := End(h);
    MemberRuns(c.job.lo, c.job.hi, c.order, Told(c, w), c.peers[w], FlightOf(c.flight, w), DoneOf(c.s, w), act);
  }

  lemma MemberIs(c: Cluster, a: Audit, w: Worker)
    requires Inv(c, a) && w in c.s.index
    ensures JobOk(c.job) && MemberOf(c, w)
  {
    hide StrayInv, FlightInv, Unsent, Member, Shaking, Outsider;
  }

  // At the start of a definition every worker that is not marked, and so may get tasks, was told unless
  // its binning does not have that definition.
  lemma FirstWorkersAreTold(c: Cluster, job: Job, order: Order, gotDef: set<Worker>, gotIds: set<Worker>, w: Worker)
    requires w in c.s.index && w in c.peers
    ensures var (d, have) := (DefineStep(c, job, order, gotDef, gotIds), After(c.peers[w].have, Queue(c.peers[w])));
            w !in d.s.failed ==> (Told(d, w) <==> order.name in have.known + {"", have.name})
  {
    hide Announce, Matches, After;
    var (p, i) := (c.peers[w], w in gotDef && w in gotIds);
    PostQueue(p, Announce(order, w in gotDef, i));
    UnderAppend(p.have, Queue(p), Announce(order, w in gotDef, i), order, true);
    AnnounceSets(After(p.have, Queue(p)), order, w in gotDef, i);
  }

  // Told or not, a worker that joins late handles its tasks under the order exactly if what it held and
  // the catch-up messages that went out make it so: it has the definition, or was told of one it knows,
  // and holds the right ids, sent or of its own.
  lemma LateWorkerIsTold(have: Def, o: Order, defSent: bool, idsSent: bool, batch: seq<(Id, Payload)>)
    ensures Under(have, Announce(o, defSent, idsSent) + [Work(batch)], o, true) <==>
              (o.name == ""
               || ((have.name == o.name || (defSent && o.name in have.known))
                   && ((o.ids.Some? && idsSent) || (if defSent then [] else have.ids) == OrderIds(o))))
  {
    hide Announce, Matches;
    var ms := Announce(o, defSent, idsSent);
    UnderAppend(have, ms, [Work(batch)], o, true);
    AnnounceIsTalk(o, defSent, idsSent);
    NoWorkUnder(have, ms, o, true);
    UnderOneWork(After(have, ms), batch, o, true);
    AnnounceSets(have, o, defSent, idsSent);
  }
}

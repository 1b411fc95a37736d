// What supervisor, channels and workers can bring about together: a session without a failed send can
// always be completed by a worker that lives; and sessions in which things go wrong.
module ClusterProgress {
  import opened Collections
  import opened TaskState
  import opened Odometer
  import opened Supervisor
  import opened SupervisorInvariant
  import opened SupervisorSteps
  import opened SupervisorDispatch
  import opened SupervisorRuns
  import opened SupervisorProgress
  import opened Flight
  import opened Completion
  import opened Workers
  import opened WorkerLoop
  import opened Cluster
  import Sessions = ClusterTheorems

  // ----- chains of moves

  ghost predicate Leads(c: Cluster, ms: seq<Move>, d: Cluster) { LegalMoves(c, ms) && RunMoves(c, ms) == d }

  lemma LeadsOne(c: Cluster, m: Move)
    requires JobOk(c.job) && CanMove(c, m)
    ensures Leads(c, [m], MoveStep(c, m))
  {
    hide CanMove, MoveStep, JobOk;
    var (ms, d) := ([m], MoveStep(c, m));
    assert ms[0] == m && ms[1..] == [];
    assert LegalMoves(d, ms[1..]);
    assert LegalMoves(c, ms);
    assert RunMoves(c, ms) == RunMoves(d, ms[1..]);
  }

  lemma {:induction false} LeadsChain(c: Cluster, ms: seq<Move>, d: Cluster, ns: seq<Move>, e: Cluster)
    requires Leads(c, ms, d) && Leads(d, ns, e)
    ensures Leads(c, ms + ns, e)
    decreases |ms|
  {
    hide CanMove, MoveStep;
    if ms == [] {
      assert ms + ns == ns;
    } else {
      assert (ms + ns)[0] == ms[0] && (ms + ns)[1..] == ms[1..] + ns;
      LeadsChain(MoveStep(c, ms[0]), ms[1..], d, ns, e);
    }
  }

  // Moves of one definition in which no send of tasks fails.
  ghost predicate Onward(ms: seq<Move>) {
    forall k :: 0 <= k < |ms| ==> !ms[k].DefineMove? && (ms[k].PassMove? ==> ms[k].sent)
  }

  ghost predicate SameDefinition(ms: seq<Move>) { forall k :: 0 <= k < |ms| ==> !ms[k].DefineMove? }

  lemma OnwardChain(ms: seq<Move>, ns: seq<Move>)
    requires Onward(ms) && Onward(ns)
    ensures Onward(ms + ns)
  {
  }

  lemma {:induction false} LostGrows(c: Cluster, ms: seq<Move>, lost: nat)
    requires LegalMoves(c, ms) && SameDefinition(ms)
    ensures LostSince(c, ms, lost) >= lost
    ensures Onward(ms) ==> LostSince(c, ms, lost) == lost
    decreases |ms|
  {
    hide CanMove, MoveStep;
    if ms != [] {
      assert forall k :: 0 <= k < |ms[1..]| ==> ms[1..][k] == ms[k + 1];
      PassNeedsWorker(c, ms[0]);
      MoveLosesNothing(c, ms[0], lost);
      LostGrows(MoveStep(c, ms[0]), ms[1..], MoveLost(c, ms[0], lost));
    }
  }

  lemma PassNeedsWorker(c: Cluster, m: Move)
    requires CanMove(c, m)
    ensures m.PassMove? ==> c.s.roster != []
  {
    hide LoopEnds, Announced, Able, JobOk;
  }

  lemma MoveLosesNothing(c: Cluster, m: Move, lost: nat)
    requires JobOk(c.job) && CanMove(c, m) && !m.DefineMove?
    ensures MoveLost(c, m, lost) >= lost
    ensures (m.PassMove? ==> m.sent) ==> MoveLost(c, m, lost) == lost
  {
    hide Fill, Pick, LoopEnds, Announced, Able;
  }

  lemma LeadsKeeps(c: Cluster, a: Audit, ms: seq<Move>, d: Cluster) returns (b: Audit)
    requires Inv(c, a) && Leads(c, ms, d) && Onward(ms) && !d.s.error
    ensures Inv(d, b) && b.lost == a.lost
  {
    hide Inv, LegalMoves, RunMoves, LostSince;
    b := MovesKeep(c, a, ms);
    LostGrows(c, ms, a.lost);
  }

  // ----- a living worker answers

  lemma FirstReply(lo: Coords, hi: Coords, o: Order, synced: bool, p: Peer, f: Batches, done: set<Id>)
    requires IsBox(lo, hi) && Member(lo, hi, o, synced, p, f, done) && p.alive && p.outbox != []
    ensures p.outbox[0].Answer?
  {
    hide QueueOnPoint, InForce, AllWorked, Underway, Pipeline;
    assert p.outbox[0] in p.outbox;
  }

  // What a worker with an empty outbox does next, if it owes an answer.
  function NextAct(p: Peer): Act {
    if p.bench.None? then DoTake(false)
    else if p.bench.value.finished < |p.bench.value.batch| then DoNext(false)
    else DoEnd
  }

  function BenchLeft(p: Peer): int { if p.bench.Some? then |p.bench.value.batch| - p.bench.value.finished + 1 else 0 }

  lemma WorksOn(lo: Coords, hi: Coords, o: Order, synced: bool, p: Peer, f: Batches, done: set<Id>)
    requires IsBox(lo, hi) && Member(lo, hi, o, synced, p, f, done) && p.alive && f != [] && p.outbox == []
    ensures var q := PeerStep(p, NextAct(p));
            && Able(p, NextAct(p)) && q.alive
            && (q.outbox == [] ==> |Queue(q)| < |Queue(p)| || (|Queue(q)| == |Queue(p)| && 0 <= BenchLeft(q) < BenchLeft(p)))
  {
    hide InForce, AllWorked, Underway, SaidGoodbye, Point, Ids;
    if p.bench.None? {
      assert Loads(Queue(p)) == f;
      assert Queue(p) != [] && Queue(p)[0] in Queue(p);
      DequeuedFields(p);
    }
  }

  lemma AnswerComes(lo: Coords, hi: Coords, o: Order, synced: bool, p: Peer, f: Batches, done: set<Id>)
      returns (acts: seq<Act>, q: Peer)
    requires IsBox(lo, hi) && Member(lo, hi, o, synced, p, f, done) && p.alive && f != []
    ensures Reaches(p, acts, q) && q.alive && q.outbox != [] && q.outbox[0].Answer?
    decreases |p.outbox| == 0, |Queue(p)|, BenchLeft(p)
  {
    hide Member, PeerStep, Able, Queue, BenchLeft, NextAct;
    if p.outbox != [] {
      FirstReply(lo, hi, o, synced, p, f, done);
      return [], p;
    }
    var act := NextAct(p);
    WorksOn(lo, hi, o, synced, p, f, done);
    PeerKeeps(lo, hi, o, synced, p, f, done, act);
    var more: seq<Act>;
    more, q := AnswerComes(lo, hi, o, synced, PeerStep(p, act), f, done);
    ReachesBoth(p, act, more, q);
    acts := [act] + more;
  }

  lemma {:induction false} PeerMoves(c: Cluster, w: Worker, acts: seq<Act>, q: Peer) returns (ms: seq<Move>)
    requires JobOk(c.job) && !c.s.error && w in c.peers && Reaches(c.peers[w], acts, q)
    ensures Leads(c, ms, c.(peers := c.peers[w := q])) && Onward(ms)
    decreases |acts|
  {
    hide Able, PeerStep, JobOk;
    if acts == [] {
      assert c.(peers := c.peers[w := q]) == c;
      return [];
    }
    var d := c.(peers := c.peers[w := PeerStep(c.peers[w], acts[0])]);
    var more := PeerMoves(d, w, acts[1..], q);
    assert d.(peers := d.peers[w := q]) == c.(peers := c.peers[w := q]);
    LeadsOne(c, PeerMove(w, acts[0]));
    LeadsChain(c, [PeerMove(w, acts[0])], d, more, c.(peers := c.peers[w := q]));
    ms := [PeerMove(w, acts[0])] + more;
  }

  // ----- steps towards the end of a definition

  ghost predicate Live(c: Cluster, w: Worker) { w in c.s.index && w !in c.s.failed && w in c.peers && c.peers[w].alive }

  // The worker still lives and is registered, nobody has joined, and nobody else outside has moved.
  ghost predicate Kept(c: Cluster, d: Cluster, w: Worker) {
    && d.job == c.job && d.order == c.order && !d.s.error && Live(d, w)
    && d.s.joining == c.s.joining && d.s.index.Keys <= c.s.index.Keys
    && (forall v :: v in c.peers && v !in c.s.index ==> v in d.peers && d.peers[v] == c.peers[v])
  }

  lemma KeptChain(c: Cluster, d: Cluster, e: Cluster, w: Worker)
    requires Kept(c, d, w) && Kept(d, e, w)
    ensures Kept(c, e, w)
  {
    hide Live;
  }

  lemma LosesOne(job: Job, s: Sup, a: Audit, v: Worker, w: Worker)
    requires SupInv(job, s, a) && !s.error && v in s.index && w in s.index && v != w
    ensures var u := Lost(s, v, false);
            && !u.error && u.index == s.index - {v} && u.failed == s.failed - {v} && u.joining == s.joining
            && u.hasMore == s.hasMore && |u.index| == |s.index| - 1
  {
    hide StrayInv, FailWorker, FailEffect;
    FailWorkerIs(job, s, a, {}, v);
    FailFields(s, v, FailWorker(s, v));
    FailKeeps(job, s, a, {}, v);
    assert {} - Sent(s, v) == {};
    RosterRegistered(job, FailWorker(s, v), AfterFailure(a, s, v), {}, w);
    assert (s.index - {v}).Keys == s.index.Keys - {v};
    assert |s.index - {v}| == |(s.index - {v}).Keys| && |s.index| == |s.index.Keys|;
  }

  // Another registered worker is given up.
  lemma DropOne(c: Cluster, a: Audit, w: Worker, v: Worker)
    requires Inv(c, a) && !c.s.error && v in c.s.index && v != w && Live(c, w)
    ensures JobOk(c.job) && CanMove(c, LoseMove(v))
    ensures var d := MoveStep(c, LoseMove(v));
            && Kept(c, d, w) && Leads(c, [LoseMove(v)], d) && |d.s.index| < |c.s.index|
            && d == c.(s := d.s) && d.s.index == c.s.index - {v} && d.s.hasMore == c.s.hasMore
  {
    hide StrayInv, FlightInv, Unsent, Peers, Lost, Leads;
    LosesOne(c.job, c.s, a, v, w);
    LeadsOne(c, LoseMove(v));
  }

  lemma OwnIdentity(job: Job, s: Sup, a: Audit, w: Worker)
    requires SupInv(job, s, a) && w in s.index
    ensures w == Identity(s.index[w])
  {
    hide TasksInv, Numbered, Recorded, Covered, Tallies, Counters, Identity;
  }

  lemma MemberParts(c: Cluster, a: Audit, w: Worker)
    requires Inv(c, a) && w in c.s.index
    ensures JobOk(c.job) && SupInv(c.job, c.s, a) && FlightInv(c.job, c.s, c.flight) && w in c.peers
    ensures Member(c.job.lo, c.job.hi, c.order, Told(c, w), c.peers[w], FlightOf(c.flight, w), DoneOf(c.s, w))
  {
    hide StrayInv, FlightInv, Unsent, Member, Shaking, Outsider;
    assert MemberOf(c, w);
  }

  // The answer of a living worker is heard and finishes at least one task.
  lemma HearAnswer(c: Cluster, a: Audit, w: Worker, v: Worker)
    requires Inv(c, a) && !c.s.error && Live(c, w) && v in c.s.index && v in c.peers && c.peers[v].alive
    requires c.peers[v].outbox != [] && c.peers[v].outbox[0].Answer?
    ensures JobOk(c.job)
    ensures var (m, i) := (HearMove(v, c.s.index[v], true, true, true), c.s.index[v]);
            && CanMove(c, m)
            && var d := MoveStep(c, m);
               Kept(c, d, w) && Leads(c, [m], d) && |d.s.tasks.done| > |c.s.tasks.done| && d.s.index == c.s.index
  {
    hide Inv, StrayInv, FlightInv, Leads, Answered, LegalMoves, RunMoves, Member, AnswerEffect, OwnedBy;
    MemberParts(c, a, v);
    OwnIdentity(c.job, c.s, a, v);
    AnswerMember(c, a, v);
    AnswerHeardEffect(c, a, v);
    AnswerGrows(c.job, c.s, a, c.flight, v);
    LeadsOne(c, HearMove(v, c.s.index[v], true, true, true));
  }

  lemma SamePeers(c: Cluster, v: Worker, q: Peer, w: Worker)
    requires Live(c, w) && v in c.s.index && q.alive && !c.s.error
    ensures Kept(c, c.(peers := c.peers[v := q]), w)
  {
  }

  lemma AnswerNext(c: Cluster, a: Audit, w: Worker, v: Worker) returns (ms: seq<Move>, d: Cluster, b: Audit)
    requires Inv(c, a) && !c.s.error && Live(c, w) && v in c.s.index && v in c.peers && c.peers[v].alive
    requires FlightOf(c.flight, v) != []
    ensures Leads(c, ms, d) && Onward(ms) && Kept(c, d, w) && Inv(d, b) && b.lost == a.lost
    ensures |d.s.tasks.done| > |c.s.tasks.done| && d.s.index == c.s.index
  {
    hide Inv, Leads, Kept, Live, Onward, Reaches, StrayInv, FlightInv, Member;
    MemberParts(c, a, v);
    var acts, q := AnswerComes(c.job.lo, c.job.hi, c.order, Told(c, v), c.peers[v], FlightOf(c.flight, v), DoneOf(c.s, v));
    var d1 := c.(peers := c.peers[v := q]);
    ms := PeerMoves(c, v, acts, q);
    var b1 := LeadsKeeps(c, a, ms, d1);
    SamePeers(c, v, q, w);
    KeptIs(c, d1, w);
    HearAnswer(d1, b1, w, v);
    var m := HearMove(v, d1.s.index[v], true, true, true);
    d := MoveStep(d1, m);
    LeadsChain(c, ms, d1, [m], d);
    OneOnward(m);
    OnwardChain(ms, [m]);
    KeptChain(c, d1, d, w);
    ms := ms + [m];
    KeptIs(c, d, w);
    b := LeadsKeeps(c, a, ms, d);
  }

  lemma OneOnward(m: Move)
    requires !m.DefineMove? && (m.PassMove? ==> m.sent)
    ensures Onward([m])
  {
  }

  lemma KeptIs(c: Cluster, d: Cluster, w: Worker)
    requires Kept(c, d, w)
    ensures Live(d, w) && !d.s.error && d.job == c.job && d.order == c.order && d.s.joining == c.s.joining
    ensures d.s.index.Keys <= c.s.index.Keys
  {
    hide Live;
  }

  lemma KeptSelf(c: Cluster, w: Worker)
    requires Live(c, w) && !c.s.error
    ensures Kept(c, c, w)
  {
    hide Live;
  }

  // With nothing in flight the next message goes out.
  lemma SendsOn(c: Cluster, a: Audit, w: Worker)
    requires Inv(c, a) && !c.s.error && a.lost == 0 && Live(c, w) && !LoopEnds(c.s)
    requires forall v :: v in c.s.index ==> FlightOf(c.flight, v) == []
    ensures JobOk(c.job) && CanMove(c, PassMove(true)) && c.s.messages == 0
    ensures var d := MoveStep(c, PassMove(true));
            && Kept(c, d, w) && Leads(c, [PassMove(true)], d) && d.s.messages == 1
            && d.s.tasks.done == c.s.tasks.done && d.s.index == c.s.index
  {
    hide StrayInv, FlightInv, Unsent, Peers, Leads, Dispatch, LegalMoves, RunMoves, Pick, PassBatch, AfterPass, LoopEnds, JobOk;
    CanContinue(c.job, c.s, a, c.flight, w);
    PassMakesProgress(c.job, c.s, a, c.flight);
    SentPass(c.job, c.s, a);
    PassWorker(c, a);
    LeadsOne(c, PassMove(true));
  }

  // Fewer workers, or as many and more finished tasks, or the same and a message on its way.
  predicate Closer(c: Cluster, d: Cluster) {
    || |d.s.index| < |c.s.index|
    || (d.s.index == c.s.index && |d.s.tasks.done| > |c.s.tasks.done|)
    || (d.s.index == c.s.index && d.s.tasks.done == c.s.tasks.done && c.s.messages == 0 && d.s.messages > 0)
  }

  lemma TowardsEnd(c: Cluster, a: Audit, w: Worker) returns (ms: seq<Move>, d: Cluster)
    requires Inv(c, a) && JobOk(c.job) && !c.s.error && a.lost == 0 && Live(c, w) && !LoopEnds(c.s)
    ensures Leads(c, ms, d) && Onward(ms) && Kept(c, d, w) && Closer(c, d)
  {
    hide Inv, Leads, Kept, Live, Onward, MoveStep, CanMove, LoopEnds, JobOk;
    if v :| v in c.s.index && v in c.peers && !c.peers[v].alive {
      LivesApart(c, v, w);
      DropOne(c, a, w, v);
      ms, d := [LoseMove(v)], MoveStep(c, LoseMove(v));
      OneOnward(LoseMove(v));
    } else if v :| v in c.s.index && FlightOf(c.flight, v) != [] {
      MemberParts(c, a, v);
      var b: Audit;
      ms, d, b := AnswerNext(c, a, w, v);
    } else {
      SendsOn(c, a, w);
      ms, d := [PassMove(true)], MoveStep(c, PassMove(true));
      OneOnward(PassMove(true));
    }
  }

  // From every state without a failed send in which a registered worker lives, the session can be
  // brought to the end of the definition: dead workers are given up, answers heard, batches sent.
  lemma CompletingMoves(c: Cluster, a: Audit, w: Worker) returns (ms: seq<Move>, d: Cluster)
    requires Inv(c, a) && JobOk(c.job) && !c.s.error && a.lost == 0 && Live(c, w)
    ensures Leads(c, ms, d) && Onward(ms) && Kept(c, d, w) && LoopEnds(d.s)
    decreases |c.s.index|, TotalTasks(c.job) - |c.s.tasks.done|, if c.s.messages == 0 then 1 else 0
  {
    hide Inv, Leads, Kept, Live, Onward, LoopEnds, TotalTasks, JobOk;
    if LoopEnds(c.s) {
      KeptSelf(c, w);
      LeadsNothing(c);
      return [], c;
    }
    var first, next := TowardsEnd(c, a, w);
    KeptIs(c, next, w);
    var b := LeadsKeeps(c, a, first, next);
    SupParts(next, b);
    ms, d := CompletingMoves(next, b, w);
    LeadsChain(c, first, next, ms, d);
    OnwardChain(first, ms);
    KeptChain(c, next, d, w);
    ms := first + ms;
  }

  lemma LivesApart(c: Cluster, v: Worker, w: Worker)
    requires Live(c, w) && v in c.peers && !c.peers[v].alive
    ensures v != w
  {
  }

  lemma LeadsNothing(c: Cluster)
    ensures Leads(c, [], c) && Onward([])
  {
  }

  lemma SupParts(c: Cluster, a: Audit)
    requires Inv(c, a)
    ensures JobOk(c.job) && SupInv(c.job, c.s, a) && FlightInv(c.job, c.s, c.flight)
    ensures |c.s.tasks.done| <= TotalTasks(c.job)
  {
    hide StrayInv, FlightInv, Unsent, Peers, JobOk, TotalTasks;
    DoneWithin(c.job, c.s, a, {});
  }

  // The same moves exist for a session: while a registered worker lives it can be completed, without
  // starting another definition, exactly if no task of this definition was in a failed send.
  lemma SessionCompletesIff(h: Sessions.Session, w: Worker)
    requires Sessions.Legal(h) && !Sessions.End(h).s.error && Live(Sessions.End(h), w)
    ensures Sessions.LostTasksOf(h) == 0 <==>
              exists ms :: SameDefinition(ms) && LegalMoves(Sessions.End(h), ms)
                           && var d := RunMoves(Sessions.End(h), ms); !d.s.error && LoopEnds(d.s)
  {
    hide Inv, Live, LoopEnds, LegalMoves, RunMoves, Sessions.Legal, Sessions.End, Sessions.LostTasksOf, Kept, JobOk;
    var c := Sessions.End(h);
    var a := Sessions.Reached(h);
    if a.lost == 0 {
      var ms, d := CompletingMoves(c, a, w);
      KeptIs(c, d, w);
      assert SameDefinition(ms);
    }
    forall ms | SameDefinition(ms) && LegalMoves(c, ms) && !RunMoves(c, ms).s.error && LoopEnds(RunMoves(c, ms).s)
      ensures a.lost == 0
    {
      var b := MovesKeep(c, a, ms);
      LostGrows(c, ms, a.lost);
      Sessions.EndedCluster(RunMoves(c, ms), b);
    }
  }
}

// Supervisor, channels and workers together, over any number of definitions. Each step is one event at
// one place: a dispatch pass, a reply taken from a channel, a step of a worker, a process that dies or
// starts again, a time-out, or the next definition.
module Cluster {
  import opened Collections
  import opened TaskState
  import opened Odometer
  import opened Supervisor
  import opened SupervisorInvariant
  import opened SupervisorSteps
  import opened SupervisorDispatch
  import opened SupervisorRuns
  import opened Flight
  import opened Workers

  datatype Cluster = Cluster(
    job: Job,
    order: Order,
    s: Sup,
    flight: map<Worker, Batches>,   // unanswered messages of each worker, oldest first
    untold: set<Worker>,            // workers not under the order with all that was posted to them
    peers: map<Worker, Peer>)

  function DoneOf(s: Sup, w: Worker): set<Id> { s.tasks.done * Sent(s, w) }

  predicate Told(c: Cluster, w: Worker) { w !in c.untold }

  ghost predicate MemberOf(c: Cluster, w: Worker)
    requires JobOk(c.job)
  {
    && w in c.peers
    && Member(c.job.lo, c.job.hi, c.order, Told(c, w), c.peers[w], FlightOf(c.flight, w), DoneOf(c.s, w))
  }

  ghost predicate Peers(c: Cluster)
    requires JobOk(c.job)
  {
    && (forall w :: w in c.s.index ==> MemberOf(c, w))
    && (forall w :: w in c.s.joining ==> w in c.peers && Shaking(c.peers[w]))
    && (forall w :: w in c.peers && w !in c.s.index ==> Outsider(c.peers[w]))
  }

  ghost predicate Inv(c: Cluster, a: Audit) {
    && SupInv(c.job, c.s, a) && FlightInv(c.job, c.s, c.flight)
    && Unsent(c.job, c.s.failed, c.s.index, c.flight) && JobOk(c.job) && Peers(c)
  }

  // ----- the steps

  datatype Move =
    | PassMove(sent: bool)
    | SweepMove
    | LoseMove(w: Worker)
    | HearMove(w: Worker, i: nat, initSent: bool, defSent: bool, idsSent: bool)
    | PeerMove(w: Worker, act: Act)
    | StartMove(w: Worker, have: Def)
    | AbortMove
    | DefineMove(job: Job, order: Order, gotDef: set<Worker>, gotIds: set<Worker>)

  ghost predicate CanMove(c: Cluster, m: Move) {
    && !c.s.error
    && match m
       case PassMove(_) => CanDispatch(c.s)
       case SweepMove => c.job.tcp
       case LoseMove(_) => true
       case HearMove(w, i, _, _, _) => w in c.peers && c.peers[w].outbox != [] && w == Identity(i)
       case PeerMove(w, act) => w in c.peers && Able(c.peers[w], act)
       // A process may come back under an identity the supervisor has given up or not yet registered;
       // its old channel is gone by then.
       case StartMove(w, have) => c.job.tcp && w !in c.s.index && have.ids == []
       case AbortMove => true
       // The next definition is dispatched by the same session once the loop of the last one has ended;
       // without TCP a failed announcement throws.
       case DefineMove(job, order, gotDef, gotIds) =>
         && LoopEnds(c.s) && JobOk(job) && job.tcp == c.job.tcp
         && (!job.tcp ==> forall w :: w in c.s.index ==> Announced(order, w in gotDef, w in gotIds))
  }

  // The pass posts its message to the worker it picked, if the socket takes it.
  ghost function PassStep(c: Cluster, sent: bool): Cluster
    requires JobOk(c.job) && c.s.roster != []
  {
    var (batch, w) := (PassBatch(c.job, c.s), Pick(c.job, c.s).worker);
    c.(s := Dispatch(c.job, c.s, sent), flight := AfterPass(c.job, c.s, c.flight, sent),
       peers := if sent && batch != [] && w in c.peers then c.peers[w := Post(c.peers[w], [Work(batch)])] else c.peers)
  }

  // The answer to INIT: the worker is registered and told the definition, as far as the sends succeed.
  ghost function Joined(c: Cluster, w: Worker, defSent: bool, idsSent: bool): Cluster
    requires w in c.peers && c.peers[w].outbox != []
  {
    var p := Post(Heard(c.peers[w]), Announce(c.order, defSent, idsSent));
    c.(s := InitAck(c.s, w), flight := c.flight - {w},
       untold := if Knows(p, c.order) then c.untold - {w} else c.untold + {w},
       peers := c.peers[w := p])
  }

  ghost function AnswerHeard(c: Cluster, w: Worker, ids: seq<Id>): Cluster
    requires w in c.peers && c.peers[w].outbox != []
  {
    c.(s := Answered(c.s, w, ids),
       flight := if w in c.s.index && FlightOf(c.flight, w) != [] then c.flight[w := FlightOf(c.flight, w)[1..]] else c.flight,
       peers := c.peers[w := Heard(c.peers[w])])
  }

  ghost function HearStep(c: Cluster, w: Worker, i: nat, initSent: bool, defSent: bool, idsSent: bool): Cluster
    requires w in c.peers && c.peers[w].outbox != []
  {
    var p := Heard(c.peers[w]);
    match c.peers[w].outbox[0]
    case Hello =>
      if c.job.tcp && w !in c.s.index && w !in c.s.joining && initSent
      then c.(s := Ready(c.s, w, i), peers := c.peers[w := Post(p, [Init])])
      else c.(peers := c.peers[w := p])
    case Inited => if c.job.tcp && w in c.s.joining then Joined(c, w, defSent, idsSent) else c.(peers := c.peers[w := p])
    case Answer(ids) => AnswerHeard(c, w, ids)
    case Goodbye => c.(s := Lost(c.s, w, c.job.tcp), peers := c.peers[w := p])
    case Trouble => c.(s := c.s.(error := true), peers := c.peers[w := p])
  }

  function Unreached(c: Cluster, order: Order, gotDef: set<Worker>, gotIds: set<Worker>): set<Worker> {
    set w | w in c.s.index && !Announced(order, w in gotDef, w in gotIds)
  }

  // SETDEF and SETIDS go to every registered worker, SETIDS only after SETDEF.
  ghost function Ordered(c: Cluster, order: Order, gotDef: set<Worker>, gotIds: set<Worker>): map<Worker, Peer> {
    map w | w in c.peers ::
      if w in c.s.index then Post(c.peers[w], Announce(order, w in gotDef, w in gotDef && w in gotIds)).(log := map[])
      else c.peers[w]
  }

  // The workers the announcement does not reach are marked.
  ghost function DefineStep(c: Cluster, job: Job, order: Order, gotDef: set<Worker>, gotIds: set<Worker>): Cluster {
    var peers := Ordered(c, order, gotDef, gotIds);
    Cluster(job, order,
            Begin(job, c.s.roster, c.s.index, c.s.failed + Unreached(c, order, gotDef, gotIds)),
            map[], (set w | w in peers && !Knows(peers[w], order)), peers)
  }

  ghost function MoveStep(c: Cluster, m: Move): Cluster
    requires CanMove(c, m) && JobOk(c.job)
  {
    match m
    case PassMove(sent) => PassStep(c, sent)
    case SweepMove => c.(s := Cleanup(c.s))
    case LoseMove(w) => c.(s := Lost(c.s, w, false))
    case HearMove(w, i, initSent, defSent, idsSent) => HearStep(c, w, i, initSent, defSent, idsSent)
    case PeerMove(w, act) => c.(peers := c.peers[w := PeerStep(c.peers[w], act)])
    case StartMove(w, have) => c.(peers := c.peers[w := NewPeer(have)])
    case AbortMove => c.(s := c.s.(error := true))
    case DefineMove(job, order, gotDef, gotIds) => DefineStep(c, job, order, gotDef, gotIds)
  }

  // ----- worker moves

  lemma PeerMoveKeeps(c: Cluster, a: Audit, w: Worker, act: Act)
    requires Inv(c, a) && w in c.peers && Able(c.peers[w], act)
    ensures Inv(c.(peers := c.peers[w := PeerStep(c.peers[w], act)]), a)
  {
    hide StrayInv, FlightInv, Unsent, Member, Shaking, Outsider, PeerStep, Able;
    var p := c.peers[w];
    if w in c.s.index {
      assert MemberOf(c, w);
      PeerKeeps(c.job.lo, c.job.hi, c.order, Told(c, w), p, FlightOf(c.flight, w), DoneOf(c.s, w), act);
    } else {
      OutsiderSteps(p, act);
    }
    if w in c.s.joining {
      ShakingSteps(p, act);
    }
    forall v | v in c.s.index ensures MemberOf(c.(peers := c.peers[w := PeerStep(p, act)]), v) {
      assert MemberOf(c, v);
    }
  }

  lemma StartMoveKeeps(c: Cluster, a: Audit, w: Worker, have: Def)
    requires Inv(c, a) && w !in c.s.index
    ensures Inv(c.(peers := c.peers[w := NewPeer(have)]), a)
  {
    hide StrayInv, FlightInv, Unsent, Member, Shaking, Outsider;
    NewPeerIsOutsider(have);
    forall v | v in c.s.index ensures MemberOf(c.(peers := c.peers[w := NewPeer(have)]), v) {
      assert MemberOf(c, v);
    }
  }

  // ----- supervisor moves that only take workers off

  // Nothing the peers' part of the invariant looks at has changed for a worker still registered.
  ghost predicate SameStanding(s: Sup, u: Sup, v: Worker) {
    v in s.index && DoneOf(u, v) == DoneOf(s, v) && (v in u.failed <==> v in s.failed)
  }

  lemma MemberHasNoHello(lo: Coords, hi: Coords, o: Order, synced: bool, p: Peer, f: Batches, done: set<Id>)
    requires IsBox(lo, hi) && Member(lo, hi, o, synced, p, f, done)
    ensures Outsider(p)
  {
    hide InStep, QueueOnPoint, InForce, AllWorked, Shaking;
  }

  lemma DropPeers(c: Cluster, u: Sup)
    requires JobOk(c.job) && Peers(c) && u.joining == c.s.joining
    requires forall v :: v in u.index ==> SameStanding(c.s, u, v)
    ensures Peers(c.(s := u))
  {
    hide Member, Shaking, Outsider, DoneOf;
    forall v | v in u.index ensures MemberOf(c.(s := u), v) {
      assert MemberOf(c, v) && SameStanding(c.s, u, v);
    }
    forall v | v in c.peers && v !in u.index ensures Outsider(c.peers[v]) {
      if v in c.s.index {
        assert MemberOf(c, v);
        MemberHasNoHello(c.job.lo, c.job.hi, c.order, Told(c, v), c.peers[v], FlightOf(c.flight, v), DoneOf(c.s, v));
      }
    }
  }

  lemma FailStanding(job: Job, s: Sup, a: Audit, stray: set<Id>, w: Worker, v: Worker)
    requires StrayInv(job, s, a, stray) && v in FailWorker(s, w).index
    ensures SameStanding(s, FailWorker(s, w), v)
    ensures FailWorker(s, w).joining == s.joining
  {
    hide StrayInv, FailWorker, FailEffect, OwnedBy;
    FailWorkerIs(job, s, a, stray, w);
    FailFields(s, w, FailWorker(s, w));
    FailLeavesOthers(job, s, a, stray, w, v);
  }

  lemma UnsentFewer(job: Job, failed: set<Worker>, index: map<Worker, nat>, flight: map<Worker, Batches>,
                    failed': set<Worker>, index': map<Worker, nat>)
    requires Unsent(job, failed, index, flight) && failed' <= failed && index'.Keys <= index.Keys
    ensures Unsent(job, failed', index', flight)
  {
  }

  lemma LoseMoveKeeps(c: Cluster, a: Audit, w: Worker, grace: bool)
    requires Inv(c, a)
    ensures Inv(c.(s := Lost(c.s, w, grace)), AfterFailure(a, c.s, w))
  {
    hide StrayInv, FlightInv, Unsent, Peers, FailWorker, FailEffect, SameStanding;
    var u := FailWorker(c.s, w);
    LoseKeeps(c.job, c.s, a, w, grace);
    FailFlight(c.job, c.s, a, {}, c.flight, w);
    FailWorkerIs(c.job, c.s, a, {}, w);
    FailFields(c.s, w, u);
    UnsentFewer(c.job, c.s.failed, c.s.index, c.flight, u.failed, u.index);
    LostIs(c.job, c.s, c.flight, w, grace);
    forall v | v in u.index ensures SameStanding(c.s, u, v) {
      FailStanding(c.job, c.s, a, {}, w, v);
    }
    DropPeers(c, u);
    PeersIgnoreError(c.(s := u), Lost(c.s, w, grace));
  }

  lemma LostIs(job: Job, s: Sup, flight: map<Worker, Batches>, w: Worker, grace: bool)
    ensures var (u, v) := (FailWorker(s, w), Lost(s, w, grace));
            && v == u.(error := v.error) && (FlightInv(job, u, flight) ==> FlightInv(job, v, flight))
  {
    hide FailWorker;
    SameExceptError(job, FailWorker(s, w), Lost(s, w, grace), flight);
  }

  lemma SameExceptError(job: Job, s: Sup, u: Sup, flight: map<Worker, Batches>)
    requires u == s.(error := u.error)
    ensures FlightInv(job, s, flight) ==> FlightInv(job, u, flight)
  {
    hide FlightInv, OwnedBy;
    if FlightInv(job, s, flight) {
      SameFlight(job, s, u, flight);
    }
  }

  lemma PeersIgnoreError(c: Cluster, u: Sup)
    requires JobOk(c.job) && Peers(c) && u == c.s.(error := u.error)
    ensures Peers(c.(s := u))
  {
    hide Member, Shaking, Outsider;
    forall v | v in u.index ensures MemberOf(c.(s := u), v) {
      assert MemberOf(c, v);
      assert DoneOf(u, v) == DoneOf(c.s, v);
    }
  }

  lemma StandingChain(s: Sup, t: Sup, u: Sup, v: Worker)
    requires SameStanding(s, t, v) && SameStanding(t, u, v)
    ensures SameStanding(s, u, v)
  {
    hide DoneOf;
  }

  lemma {:induction false} FailEachStanding(job: Job, s: Sup, a: Audit, stray: set<Id>, ws: seq<Worker>, v: Worker)
    requires StrayInv(job, s, a, stray) && v in FailEach(s, ws).index
    ensures SameStanding(s, FailEach(s, ws), v)
    decreases |ws|
  {
    hide StrayInv, FailWorker, FailEffect, SameStanding;
    if ws == [] {
      StandingSelf(s, v);
    } else {
      var t := FailWorker(s, ws[0]);
      FailKeeps(job, s, a, stray, ws[0]);
      FailEachStanding(job, t, AfterFailure(a, s, ws[0]), stray - Sent(s, ws[0]), ws[1..], v);
      StandingIndex(t, FailEach(s, ws), v);
      FailStanding(job, s, a, stray, ws[0], v);
      StandingChain(s, t, FailEach(s, ws), v);
    }
  }

  lemma StandingSelf(s: Sup, v: Worker)
    requires v in s.index
    ensures SameStanding(s, s, v)
  {
  }

  lemma StandingIndex(s: Sup, u: Sup, v: Worker)
    requires SameStanding(s, u, v)
    ensures v in s.index
  {
  }

  lemma CleanupStanding(job: Job, s: Sup, a: Audit, stray: set<Id>, v: Worker)
    requires StrayInv(job, s, a, stray) && v in Cleanup(s).index
    ensures SameStanding(s, Cleanup(s), v)
  {
    hide StrayInv, FailEach, Marked, DoneOf;
    if s.failed == {} {
      StandingSelf(s, v);
    } else {
      var u := FailEach(s, Marked(s.roster, s.failed));
      FailEachStanding(job, s, a, stray, Marked(s.roster, s.failed), v);
      assert DoneOf(Cleanup(s), v) == DoneOf(u, v) by { DoneOfError(u, Cleanup(s), v); }
    }
  }

  lemma DoneOfError(s: Sup, u: Sup, v: Worker)
    requires u == s.(error := u.error)
    ensures DoneOf(u, v) == DoneOf(s, v)
  {
  }

  lemma CleanupFields(job: Job, s: Sup, a: Audit, stray: set<Id>)
    requires StrayInv(job, s, a, stray)
    ensures Cleanup(s).joining == s.joining && Cleanup(s).failed <= s.failed && Cleanup(s).index.Keys <= s.index.Keys
  {
    hide StrayInv, FailEach, Marked;
    FailEachFields(job, s, a, stray, Marked(s.roster, s.failed));
  }

  lemma SweepMoveKeeps(c: Cluster, a: Audit) returns (b: Audit)
    requires Inv(c, a) && !c.s.error
    ensures !Cleanup(c.s).error ==> Inv(c.(s := Cleanup(c.s)), b) && b.lost == a.lost
  {
    hide StrayInv, FlightInv, Unsent, Peers, Cleanup, SameStanding;
    var u := Cleanup(c.s);
    b := CleanupKeeps(c.job, c.s, a, {});
    CleanupFlight(c.job, c.s, a, {}, c.flight);
    CleanupFields(c.job, c.s, a, {});
    UnsentFewer(c.job, c.s.failed, c.s.index, c.flight, u.failed, u.index);
    forall v | v in u.index ensures SameStanding(c.s, u, v) {
      CleanupStanding(c.job, c.s, a, {}, v);
    }
    DropPeers(c, u);
  }

  // ----- a dispatch pass

  // Filling a batch finishes nothing and moves no finished task between histories.
  lemma SameHistories(job: Job, s: Sup, a: Audit, u: Sup, b: Audit, ids: set<Id>, w: Worker, v: Worker)
    requires Recorded(s.history, a.sentTo) && Recorded(u.history, b.sentTo) && u.tasks.done == s.tasks.done
    requires b == Credit(a, ids, w) && ids !! s.tasks.done
    ensures DoneOf(u, v) == DoneOf(s, v)
  {
    forall id | id in s.tasks.done ensures id in Sent(u, v) <==> id in Sent(s, v) {
      assert id in a.sentTo <==> id in b.sentTo;
      if id in Sent(s, v) {
        assert b.sentTo[id] == v;
      }
      if id in Sent(u, v) {
        assert a.sentTo[id] == v;
      }
    }
  }

  lemma FillStanding(job: Job, s: Sup, a: Audit, w: Worker, v: Worker)
    requires SupInv(job, s, a) && JobOk(job) && s.roster != [] && w in s.index && v in s.index
    ensures SameStanding(s, Fill(job, s, w).s, v) && Fill(job, s, w).s.joining == s.joining
  {
    hide StrayInv, FillInv, Fill, Loaded, DoneOf, QueueIds, Credit;
    FillKeeps(job, s, a, w);
    var f := Fill(job, s, w);
    FillParts(job, s, a, f, w);
    BatchRuns(s.tasks, f.s.tasks, f.batch, w);
    Recordings(job, s, a);
    Recordings(job, f.s, Credit(a, QueueIds(f.batch), w));
    SameHistories(job, s, a, f.s, Credit(a, QueueIds(f.batch), w), QueueIds(f.batch), w, v);
  }

  lemma Recordings(job: Job, s: Sup, a: Audit)
    requires SupInv(job, s, a)
    ensures Recorded(s.history, a.sentTo) && s.tasks.running.Keys !! s.tasks.done
  {
    hide Numbered, Recorded, Covered, Registered, Tallies, Counters, QueueIndexed, PayloadsAgree, OwnersInverse;
  }

  // The batch of a pass carries the points of its ids, and only a worker that was told the definition
  // gets it.
  lemma PassBatchOk(job: Job, s: Sup, a: Audit, flight: map<Worker, Batches>)
    requires SupInv(job, s, a) && JobOk(job) && s.roster != [] && FlightInv(job, s, flight) && (!job.tcp ==> s.failed == {})
    ensures Pick(job, s).found ==> Pick(job, s).worker in s.index && Pick(job, s).worker !in s.failed
    ensures PassBatch(job, s) != [] ==> OnPoint(job.lo, job.hi, PassBatch(job, s)) && Pick(job, s).found
  {
    hide StrayInv, FillInv, Fill, Loaded, Pick, FlightInv, Point, Volume;
    PickIs(job, s);
    var c := Pick(job, s);
    var u := s.(turn := c.turn);
    Unrelated(job, s, a, {}, u);
    if c.found {
      RosterRegistered(job, s, a, {}, c.worker);
      FillKeeps(job, u, a, c.worker);
      FillParts(job, u, a, Fill(job, u, c.worker), c.worker);
    }
  }

  lemma SendFailedDone(job: Job, s: Sup, a: Audit, f: Filled, w: Worker, v: Worker)
    requires FillInv(job, s, a, f, w)
    ensures DoneOf(SendFailed(f, w), v) == DoneOf(f.s, v)
  {
    hide SupInv, FillInv, FailTasks, QueueIds, Credit, Loaded;
    FillParts(job, s, a, f, w);
    BatchRuns(s.tasks, f.s.tasks, f.batch, w);
    LostTasksDone(job, s, a, f, w);
  }

  lemma LostTasksDone(job: Job, s: Sup, a: Audit, f: Filled, w: Worker)
    requires FillInv(job, s, a, f, w)
    ensures SendFailed(f, w).tasks.done == f.s.tasks.done
  {
    hide FillInv, FailTasks, QueueIds, Credit;
    SendFailedTasks(job, s, a, f, w);
  }

  lemma LostPassStanding(job: Job, s: Sup, a: Audit, f: Filled, w: Worker, v: Worker)
    requires FillInv(job, s, a, f, w) && v in Cleanup(SendFailed(f, w)).index && !f.s.error && SameStanding(s, f.s, v)
    ensures SameStanding(s, Cleanup(SendFailed(f, w)), v) && Cleanup(SendFailed(f, w)).joining == f.s.joining
  {
    hide StrayInv, FillInv, FailTasks, Cleanup, QueueIds, Credit, DoneOf;
    var ids := QueueIds(f.batch);
    var b := Credit(a, ids, w).(lost := a.lost + |f.batch|);
    SendFailedKeeps(job, s, a, f, w);
    CleanupFields(job, SendFailed(f, w), b, ids);
    CleanupStanding(job, SendFailed(f, w), b, ids, v);
    CleanupLeaves(job, SendFailed(f, w), b, ids, v);
    SendFailedDone(job, s, a, f, w, v);
  }

  lemma PostedStanding(f: Sup, w: Worker, v: Worker)
    requires v in f.index
    ensures SameStanding(f, Posted(f, w), v) && Posted(f, w).joining == f.joining
  {
  }

  // A pass leaves every worker that is still registered as it was, but for the message it may get.
  lemma PassStanding(job: Job, s: Sup, a: Audit, sent: bool, v: Worker)
    requires SupInv(job, s, a) && JobOk(job) && !s.error && s.roster != []
    ensures !Dispatch(job, s, sent).error ==> Dispatch(job, s, sent).joining == s.joining
    ensures !Dispatch(job, s, sent).error && v in Dispatch(job, s, sent).index ==> SameStanding(s, Dispatch(job, s, sent), v)
  {
    hide StrayInv, FillInv, Fill, Cleanup, Dispatch, Pick, SendFailed, Posted, SameStanding;
    DispatchCases(job, s, sent);
    PickIs(job, s);
    var (c, u) := (Pick(job, s), s.(turn := Pick(job, s).turn));
    Unrelated(job, s, a, {}, u);
    TurnStanding(s, u, v);
    if c.found {
      RosterRegistered(job, s, a, {}, c.worker);
      var f := Fill(job, u, c.worker);
      FillKeeps(job, u, a, c.worker);
      FillParts(job, u, a, f, c.worker);
      FillStanding(job, u, a, c.worker, c.worker);
      PassIndex(job, u, a, f, c.worker);
      if v in Dispatch(job, s, sent).index && !Dispatch(job, s, sent).error {
        FillStanding(job, u, a, c.worker, v);
        StandingChain(s, u, f.s, v);
        if !(f.s.error || f.batch == []) {
          if sent {
            PostedStanding(f.s, c.worker, v);
            StandingChain(s, f.s, Posted(f.s, c.worker), v);
          } else {
            LostPassStanding(job, u, a, f, c.worker, v);
            StandingChain(s, u, Dispatch(job, s, sent), v);
          }
        }
      }
    }
  }

  lemma TurnStanding(s: Sup, u: Sup, v: Worker)
    requires u == s.(turn := u.turn)
    ensures v in s.index ==> SameStanding(s, u, v)
  {
  }

  lemma PassIndex(job: Job, s: Sup, a: Audit, f: Filled, w: Worker)
    requires FillInv(job, s, a, f, w)
    ensures f.s.index == s.index && Posted(f.s, w).index == s.index && Posted(f.s, w).joining == f.s.joining
    ensures Cleanup(SendFailed(f, w)).index.Keys <= s.index.Keys && Cleanup(SendFailed(f, w)).joining == f.s.joining
  {
    hide StrayInv, FillInv, FailTasks, Cleanup, QueueIds, Credit;
    FillParts(job, s, a, f, w);
    SendFailedKeeps(job, s, a, f, w);
    CleanupFields(job, SendFailed(f, w), Credit(a, QueueIds(f.batch), w).(lost := a.lost + |f.batch|), QueueIds(f.batch));
  }

  // The worker that gets the message is one that was told the definition.
  lemma PostedMember(c: Cluster, a: Audit, w: Worker, batch: seq<(Id, Payload)>)
    requires Inv(c, a) && w in c.s.index && OnPoint(c.job.lo, c.job.hi, batch)
    ensures w in c.peers
    ensures Member(c.job.lo, c.job.hi, c.order, Told(c, w), Post(c.peers[w], [Work(batch)]),
                   FlightOf(c.flight, w) + [Ids(batch)], DoneOf(c.s, w))
  {
    hide StrayInv, FlightInv, Unsent, Member, Shaking, Outsider, OnPoint;
    assert MemberOf(c, w);
    PostWork(c.job.lo, c.job.hi, c.order, Told(c, w), c.peers[w], FlightOf(c.flight, w), DoneOf(c.s, w), batch);
  }

  lemma PassPeers(c: Cluster, a: Audit, sent: bool)
    requires Inv(c, a) && !c.s.error && c.s.roster != [] && !PassStep(c, sent).s.error
    ensures Peers(PassStep(c, sent))
  {
    hide StrayInv, FlightInv, Unsent, Member, Shaking, Outsider, OnPoint, Dispatch, Pick, PassBatch, DoneOf, Ids;
    var (d, batch, w) := (PassStep(c, sent), PassBatch(c.job, c.s), Pick(c.job, c.s).worker);
    PassStanding(c.job, c.s, a, sent, w);
    PassWorker(c, a);
    if sent && batch != [] {
      PostedMember(c, a, w, batch);
      forall v | v in d.s.index ensures MemberOf(d, v) {
        assert v in c.s.index ==> MemberOf(c, v);
        PassStanding(c.job, c.s, a, sent, v);
      }
      SentPassIndex(c.job, c.s, a);
      forall v | v in c.s.joining ensures v != w {
        JoiningApart(c.job, c.s, a, v);
      }
    } else {
      forall v | v in d.s.index ensures SameStanding(c.s, d.s, v) {
        PassStanding(c.job, c.s, a, sent, v);
      }
      DropPeers(c, d.s);
    }
  }

  lemma SentPassIndex(job: Job, s: Sup, a: Audit)
    requires SupInv(job, s, a) && JobOk(job) && !s.error && s.roster != []
    ensures Dispatch(job, s, true).index == s.index
  {
    hide StrayInv, FillInv, Fill, Cleanup, Dispatch, Pick, SendFailed, Posted;
    DispatchCases(job, s, true);
    PickIs(job, s);
    var (c, u) := (Pick(job, s), s.(turn := Pick(job, s).turn));
    Unrelated(job, s, a, {}, u);
    if c.found {
      RosterRegistered(job, s, a, {}, c.worker);
      FillKeeps(job, u, a, c.worker);
      PassIndex(job, u, a, Fill(job, u, c.worker), c.worker);
    }
  }

  lemma PassWorker(c: Cluster, a: Audit)
    requires Inv(c, a) && c.s.roster != []
    ensures PassBatch(c.job, c.s) != [] ==>
              Pick(c.job, c.s).worker in c.s.index && OnPoint(c.job.lo, c.job.hi, PassBatch(c.job, c.s))
  {
    hide StrayInv, FlightInv, Peers, OnPoint, Pick, PassBatch;
    PassBatchOk(c.job, c.s, a, c.flight);
  }

  lemma PassFailed(job: Job, s: Sup, a: Audit, sent: bool)
    requires SupInv(job, s, a) && JobOk(job) && !s.error && s.roster != [] && !job.tcp
    ensures !Dispatch(job, s, sent).error ==> Dispatch(job, s, sent).failed == s.failed
  {
    hide StrayInv, FillInv, Fill, Cleanup, Dispatch, Pick, SendFailed;
    DispatchCases(job, s, sent);
    PickIs(job, s);
    var (c, u) := (Pick(job, s), s.(turn := Pick(job, s).turn));
    Unrelated(job, s, a, {}, u);
    if c.found {
      RosterRegistered(job, s, a, {}, c.worker);
      FillKeeps(job, u, a, c.worker);
      FillParts(job, u, a, Fill(job, u, c.worker), c.worker);
    }
  }

  lemma PassUnsent(c: Cluster, a: Audit, sent: bool)
    requires Inv(c, a) && !c.s.error && c.s.roster != [] && !PassStep(c, sent).s.error
    ensures Unsent(c.job, PassStep(c, sent).s.failed, PassStep(c, sent).s.index, PassStep(c, sent).flight)
  {
    hide StrayInv, FlightInv, Peers, Dispatch, Pick, PassBatch, Ids, DoneOf;
    var d := PassStep(c, sent);
    PassBatchOk(c.job, c.s, a, c.flight);
    if !c.job.tcp {
      PassFailed(c.job, c.s, a, sent);
    }
    forall v | v in d.s.failed && v in d.s.index ensures FlightOf(d.flight, v) == [] {
      PassStanding(c.job, c.s, a, sent, v);
    }
  }

  lemma PassMoveKeeps(c: Cluster, a: Audit, sent: bool) returns (b: Audit)
    requires Inv(c, a) && CanDispatch(c.s)
    ensures !PassStep(c, sent).s.error ==>
              Inv(PassStep(c, sent), b) && b.lost == a.lost + LostTasks(c.job, c.s, sent)
  {
    hide StrayInv, FlightInv, Unsent, Peers, Dispatch, LostTasks, AfterPass, PassBatch, Pick;
    b := DispatchKeeps(c.job, c.s, a, sent);
    PassFlight(c.job, c.s, a, c.flight, sent);
    if !PassStep(c, sent).s.error {
      PassPeers(c, a, sent);
      PassUnsent(c, a, sent);
    }
  }

  // ----- a reply taken from a channel

  // Replies of workers that are not registered are handshakes or stale.
  lemma OutsiderHeard(c: Cluster, a: Audit, w: Worker)
    requires Inv(c, a) && w in c.peers && w !in c.s.index && c.peers[w].outbox != []
    ensures Inv(c.(peers := c.peers[w := Heard(c.peers[w])]), a)
  {
    hide StrayInv, FlightInv, Unsent, Member, Shaking, Outsider, Heard;
    var d := c.(peers := c.peers[w := Heard(c.peers[w])]);
    HeardOutsider(c.peers[w]);
    if w in c.s.joining {
      HeardShaking(c.peers[w]);
    }
    forall v | v in c.s.index ensures MemberOf(d, v) {
      assert MemberOf(c, v);
    }
  }

  lemma StaleIgnored(s: Sup, w: Worker, ids: seq<Id>)
    requires w !in s.index
    ensures Answered(s, w, ids) == s
  {
  }

  lemma HelloPeer(p: Peer)
    requires Outsider(p) && p.outbox != [] && p.outbox[0].Hello?
    ensures Shaking(Post(Heard(p), [Init])) && Outsider(Post(Heard(p), [Init]))
  {
    assert Hello in p.outbox;
    HeardShaking(p);
    NoGreetings(Heard(p).outbox);
  }

  lemma HelloKeeps(c: Cluster, a: Audit, w: Worker, i: nat)
    requires Inv(c, a) && w in c.peers && w !in c.s.index && w !in c.s.joining && w == Identity(i)
    requires c.peers[w].outbox != [] && c.peers[w].outbox[0].Hello?
    ensures Inv(c.(s := Ready(c.s, w, i), peers := c.peers[w := Post(Heard(c.peers[w]), [Init])]), a)
  {
    hide StrayInv, FlightInv, Unsent, Member, Shaking, Outsider, Heard, Post;
    var d := c.(s := Ready(c.s, w, i), peers := c.peers[w := Post(Heard(c.peers[w]), [Init])]);
    ReadyKeeps(c.job, c.s, a, w, i);
    SameFlight(c.job, c.s, d.s, c.flight);
    HelloPeer(c.peers[w]);
    forall v | v in c.s.index ensures MemberOf(d, v) {
      assert MemberOf(c, v);
      assert DoneOf(d.s, v) == DoneOf(c.s, v);
    }
  }

  lemma JoinStanding(job: Job, s: Sup, a: Audit, w: Worker, v: Worker)
    requires SupInv(job, s, a) && w in s.joining
    ensures var u := InitAck(s, w);
            && w !in s.index && u.index.Keys == s.index.Keys + {w} && u.failed == s.failed
            && u.joining == s.joining - {w} && DoneOf(u, w) == {} && DoneOf(u, v) == DoneOf(s, v)
  {
    hide TasksInv, Numbered, Recorded, Covered, Registered, Counters, Counted, Named;
    JoiningApart(job, s, a, w);
  }

  lemma JoinedPeers(c: Cluster, a: Audit, w: Worker, defSent: bool, idsSent: bool)
    requires Inv(c, a) && w in c.peers && w in c.s.joining && c.peers[w].outbox != [] && c.peers[w].outbox[0].Inited?
    ensures Peers(Joined(c, w, defSent, idsSent))
  {
    hide StrayInv, FlightInv, Unsent, Member, Shaking, Outsider, Heard, Post, Announce, Announced, InitAck, DoneOf, Knows;
    var d := Joined(c, w, defSent, idsSent);
    JoinsAsMember(c.job.lo, c.job.hi, c.order, c.peers[w], defSent, idsSent);
    JoinStanding(c.job, c.s, a, w, w);
    forall v | v in d.s.index ensures MemberOf(d, v) {
      JoinStanding(c.job, c.s, a, w, v);
      if v != w {
        assert MemberOf(c, v);
        assert Told(d, v) == Told(c, v);
      }
    }
  }

  lemma JoinedKeeps(c: Cluster, a: Audit, w: Worker, defSent: bool, idsSent: bool)
    requires Inv(c, a) && w in c.peers && w in c.s.joining && c.peers[w].outbox != [] && c.peers[w].outbox[0].Inited?
    ensures Inv(Joined(c, w, defSent, idsSent), a)
  {
    hide StrayInv, FlightInv, Peers, Heard, Post, Announce, Announced, InitAck;
    InitAckKeeps(c.job, c.s, a, w);
    JoinFlight(c.job, c.s, a, c.flight, w);
    JoinedPeers(c, a, w, defSent, idsSent);
    JoinStanding(c.job, c.s, a, w, w);
  }

  lemma SettledStanding(job: Job, s: Sup, a: Audit, w: Worker, ids: set<Id>, u: Sup, v: Worker)
    requires SupInv(job, s, a) && Settled(s, w, ids, u) && ids <= OwnedBy(s.tasks, w)
    ensures DoneOf(u, v) == DoneOf(s, v) + (if v == w then ids else {})
    ensures u.failed == s.failed && u.joining == s.joining && u.index == s.index && u.error == s.error
  {
    hide QueueIndexed, Partitioned, PayloadsAgree, Numbered, Registered, Counters, Tallies;
    forall id | id in ids ensures id in Sent(s, w) && (v != w ==> id !in Sent(s, v)) {
      assert id in s.tasks.owner && id in s.tasks.running;
      assert a.sentTo[id] == w;
      if v != w {
        SentApart(s.history, a.sentTo, v, w);
      }
    }
  }

  lemma AnswerMember(c: Cluster, a: Audit, w: Worker)
    requires Inv(c, a) && w in c.s.index && w in c.peers && c.peers[w].outbox != [] && c.peers[w].outbox[0].Answer?
    ensures var f := FlightOf(c.flight, w);
            && f != [] && f[0] == c.peers[w].outbox[0].ids
            && Member(c.job.lo, c.job.hi, c.order, Told(c, w), Heard(c.peers[w]), f[1..], DoneOf(c.s, w) + ToSet(f[0]))
  {
    hide StrayInv, FlightInv, Unsent, Member, Shaking, Outsider, Heard;
    assert MemberOf(c, w);
    HeardAnswer(c.job.lo, c.job.hi, c.order, Told(c, w), c.peers[w], FlightOf(c.flight, w), DoneOf(c.s, w));
  }

  lemma FirstOwned(job: Job, s: Sup, flight: map<Worker, Batches>, w: Worker)
    requires FlightInv(job, s, flight) && w in s.index && FlightOf(flight, w) != []
    ensures ToSet(FlightOf(flight, w)[0]) <= OwnedBy(s.tasks, w)
  {
    hide OneFlight, OwnedBy, SumOf;
    assert OneFlight(job, OwnedBy(s.tasks, w), Unanswered(s, w), FlightOf(flight, w));
    FirstBatch(job, OwnedBy(s.tasks, w), Unanswered(s, w), FlightOf(flight, w));
  }

  // A reply with results from a registered worker is always accepted in full: it answers the oldest
  // message, its worker owns every task in it, and no counter is at zero.
  lemma AnswerHeardEffect(c: Cluster, a: Audit, w: Worker)
    requires Inv(c, a) && !c.s.error && w in c.s.index && w in c.peers
    requires c.peers[w].outbox != [] && c.peers[w].outbox[0].Answer?
    ensures var ids := c.peers[w].outbox[0].ids;
            && ToSet(ids) <= OwnedBy(c.s.tasks, w) && AnswerEffect(c.s, w, ids, Answered(c.s, w, ids))
            && !Answered(c.s, w, ids).error
  {
    hide StrayInv, FlightInv, Unsent, Member, Peers, Answered, AnswerEffect, Heard;
    AnswerMember(c, a, w);
    FirstOwned(c.job, c.s, c.flight, w);
    AnswerAccepted(c.job, c.s, a, c.flight, w);
  }

  lemma AnswerSettles(s: Sup, w: Worker, ids: seq<Id>, u: Sup)
    requires AnswerEffect(s, w, ids, u)
    ensures Settled(s, w, ToSet(ids), u)
  {
    hide Settled, OneLess;
  }

  lemma AnswerPeers(c: Cluster, a: Audit, w: Worker)
    requires Inv(c, a) && !c.s.error && w in c.s.index && w in c.peers
    requires c.peers[w].outbox != [] && c.peers[w].outbox[0].Answer?
    ensures Peers(AnswerHeard(c, w, c.peers[w].outbox[0].ids))
  {
    hide StrayInv, FlightInv, Unsent, Member, Shaking, Outsider, Heard, Answered, AnswerEffect, DoneOf, OwnedBy, Settled;
    var ids := c.peers[w].outbox[0].ids;
    var d := AnswerHeard(c, w, ids);
    AnswerMember(c, a, w);
    AnswerHeardEffect(c, a, w);
    AnswerSettles(c.s, w, ids, d.s);
    SettledStanding(c.job, c.s, a, w, ToSet(ids), d.s, w);
    forall v | v in d.s.index ensures MemberOf(d, v) {
      SettledStanding(c.job, c.s, a, w, ToSet(ids), d.s, v);
      if v != w {
        assert MemberOf(c, v);
        assert DoneOf(c.s, v) + {} == DoneOf(c.s, v);
      }
    }
    forall v | v in d.s.joining ensures v != w {
      JoiningApart(c.job, c.s, a, v);
    }
  }

  lemma AnswerKeeps(c: Cluster, a: Audit, w: Worker)
    requires Inv(c, a) && !c.s.error && w in c.s.index && w in c.peers
    requires c.peers[w].outbox != [] && c.peers[w].outbox[0].Answer?
    ensures Inv(AnswerHeard(c, w, c.peers[w].outbox[0].ids), a)
  {
    hide StrayInv, FlightInv, Unsent, Member, Peers, Heard, Answered, DoneOf, OwnedBy, Settled, AnswerEffect;
    var ids := c.peers[w].outbox[0].ids;
    var u := Answered(c.s, w, ids);
    AnswerMember(c, a, w);
    AnswerPeers(c, a, w);
    AnswerHeardEffect(c, a, w);
    AnswerSettles(c.s, w, ids, u);
    SettledIndex(c.s, w, ToSet(ids), u);
    AnswerAccepted(c.job, c.s, a, c.flight, w);
    AnswerFlight(c.job, c.s, a, c.flight, w);
    UnsentPopped(c.job, c.s.failed, c.s.index, c.flight, w);
  }

  lemma UnsentPopped(job: Job, failed: set<Worker>, index: map<Worker, nat>, flight: map<Worker, Batches>, w: Worker)
    requires Unsent(job, failed, index, flight) && FlightOf(flight, w) != [] && w in index
    ensures Unsent(job, failed, index, flight[w := FlightOf(flight, w)[1..]])
  {
  }

  lemma GoodbyeKeeps(c: Cluster, a: Audit, w: Worker)
    requires Inv(c, a) && w in c.peers && c.peers[w].outbox != [] && c.peers[w].outbox[0].Goodbye?
    ensures Inv(c.(s := Lost(c.s, w, c.job.tcp), peers := c.peers[w := Heard(c.peers[w])]), AfterFailure(a, c.s, w))
  {
    hide StrayInv, FlightInv, Unsent, Member, Shaking, Outsider, Heard, Lost;
    var d := c.(s := Lost(c.s, w, c.job.tcp));
    LoseMoveKeeps(c, a, w, c.job.tcp);
    LostIndex(c.job, c.s, a, w, c.job.tcp);
    OutsiderHeard(d, AfterFailure(a, c.s, w), w);
  }

  lemma LostIndex(job: Job, s: Sup, a: Audit, w: Worker, grace: bool)
    requires SupInv(job, s, a)
    ensures w !in Lost(s, w, grace).index
  {
    hide StrayInv, FailWorker, FailEffect;
    FailWorkerIs(job, s, a, {}, w);
    FailFields(s, w, FailWorker(s, w));
  }

  lemma RegisteredTalk(c: Cluster, a: Audit, w: Worker)
    requires Inv(c, a) && w in c.s.index && w in c.peers && c.peers[w].outbox != []
    ensures !c.peers[w].outbox[0].Hello? && !c.peers[w].outbox[0].Inited?
  {
    hide StrayInv, FlightInv, Unsent, InStep, QueueOnPoint, InForce, AllWorked, Shaking, Outsider;
    assert MemberOf(c, w);
    assert c.peers[w].outbox[0] in c.peers[w].outbox;
  }

  lemma HearMoveKeeps(c: Cluster, a: Audit, w: Worker, i: nat, initSent: bool, defSent: bool, idsSent: bool) returns (b: Audit)
    requires Inv(c, a) && CanMove(c, HearMove(w, i, initSent, defSent, idsSent))
    ensures var d := HearStep(c, w, i, initSent, defSent, idsSent);
            !d.s.error ==> Inv(d, b) && b.lost == a.lost
  {
    hide Inv, Heard, Post, Joined, AnswerHeard, Lost, Ready, Identity;
    b := a;
    ApartIndex(c, a, w);
    match c.peers[w].outbox[0]
    case Hello =>
      if c.job.tcp && w !in c.s.index && w !in c.s.joining && initSent {
        HelloKeeps(c, a, w, i);
      } else {
        OutsiderHeard(c, a, w);
      }
    case Inited =>
      if c.job.tcp && w in c.s.joining {
        JoinedKeeps(c, a, w, defSent, idsSent);
      } else {
        OutsiderHeard(c, a, w);
      }
    case Answer(ids) =>
      if w in c.s.index {
        AnswerKeeps(c, a, w);
      } else {
        StaleHeard(c, w, ids);
        OutsiderHeard(c, a, w);
      }
    case Goodbye =>
      GoodbyeKeeps(c, a, w);
      b := AfterFailure(a, c.s, w);
    case Trouble =>
  }

  lemma StaleHeard(c: Cluster, w: Worker, ids: seq<Id>)
    requires w in c.peers && c.peers[w].outbox != [] && w !in c.s.index
    ensures AnswerHeard(c, w, ids) == c.(peers := c.peers[w := Heard(c.peers[w])])
  {
    hide Answered;
    StaleIgnored(c.s, w, ids);
  }

  lemma ApartIndex(c: Cluster, a: Audit, w: Worker)
    requires Inv(c, a) && w in c.peers && c.peers[w].outbox != []
    ensures (c.peers[w].outbox[0].Hello? || c.peers[w].outbox[0].Inited?) ==> w !in c.s.index
  {
    hide Inv;
    if w in c.s.index {
      RegisteredTalk(c, a, w);
    }
  }

  // ----- the next definition

  // When the loop has ended, nothing is in flight.
  lemma EndedFlight(job: Job, s: Sup, a: Audit, flight: map<Worker, Batches>, w: Worker)
    requires SupInv(job, s, a) && FlightInv(job, s, flight) && LoopEnds(s) && w in s.index
    ensures FlightOf(flight, w) == []
  {
    hide StrayInv, Flat, SumOf, OwnedBy;
    EndedState(job, s, a);
    OwnersRun(job, s, a, w);
    assert OneFlight(job, OwnedBy(s.tasks, w), Unanswered(s, w), FlightOf(flight, w));
    if FlightOf(flight, w) != [] {
      FirstBatch(job, OwnedBy(s.tasks, w), Unanswered(s, w), FlightOf(flight, w));
      NonEmpty(FlightOf(flight, w)[0]);
    }
  }

  lemma NonEmpty(ids: seq<Id>)
    requires ids != []
    ensures ToSet(ids) != {}
  {
    assert ids[0] in ToSet(ids);
  }

  lemma OwnersRun(job: Job, s: Sup, a: Audit, w: Worker)
    requires SupInv(job, s, a) && s.tasks.running == map[]
    ensures OwnedBy(s.tasks, w) == {}
  {
    hide QueueIndexed, Partitioned, PayloadsAgree, Inverse, Numbered, Registered, Counters, Tallies, Recorded, Covered;
  }

  lemma RosterCarriesOver(job: Job, s: Sup, a: Audit)
    requires SupInv(job, s, a)
    ensures StartOk(s.roster, s.index)
  {
    hide TasksInv, Numbered, Recorded, Covered, Counters, Tallies, Identity;
  }

  lemma DefinedMember(c: Cluster, a: Audit, job: Job, order: Order, gotDef: set<Worker>, gotIds: set<Worker>, w: Worker)
    requires Inv(c, a) && LoopEnds(c.s) && JobOk(job) && w in c.s.index
    ensures MemberOf(DefineStep(c, job, order, gotDef, gotIds), w)
  {
    hide StrayInv, FlightInv, Unsent, Member, Shaking, Outsider, Announce, Announced, Post, Knows;
    var d := DefineStep(c, job, order, gotDef, gotIds);
    assert MemberOf(c, w);
    EndedFlight(c.job, c.s, a, c.flight, w);
    NewOrder(c.job.lo, c.job.hi, c.order, Told(c, w), c.peers[w], DoneOf(c.s, w),
             job.lo, job.hi, order, w in gotDef, w in gotDef && w in gotIds);
    assert DoneOf(d.s, w) == {};
  }

  lemma DefineMoveKeeps(c: Cluster, a: Audit, job: Job, order: Order, gotDef: set<Worker>, gotIds: set<Worker>)
    requires Inv(c, a) && CanMove(c, DefineMove(job, order, gotDef, gotIds))
    ensures Inv(DefineStep(c, job, order, gotDef, gotIds), Audit(0, map[]))
  {
    hide StrayInv, FlightInv, Member, Shaking, Outsider, MemberOf, Announced, Identity, Begin, LoopEnds, Knows;
    var d := DefineStep(c, job, order, gotDef, gotIds);
    RosterCarriesOver(c.job, c.s, a);
    BeginInv(job, c.s.roster, c.s.index, c.s.failed + Unreached(c, order, gotDef, gotIds));
    BeginFlight(job, c.s.roster, c.s.index, c.s.failed + Unreached(c, order, gotDef, gotIds));
    BeginFields(job, c.s.roster, c.s.index, c.s.failed + Unreached(c, order, gotDef, gotIds));
    forall w | w in d.s.index ensures MemberOf(d, w) {
      DefinedMember(c, a, job, order, gotDef, gotIds, w);
    }
  }

  lemma BeginFields(job: Job, roster: seq<Worker>, index: map<Worker, nat>, failed: set<Worker>)
    ensures var s := Begin(job, roster, index, failed);
            s.index == index && s.failed == failed && s.joining == map[] && s.roster == roster
  {
  }

  // ----- every move, and whole runs

  ghost function MoveLost(c: Cluster, m: Move, lost: nat): nat
    requires JobOk(c.job) && (m.PassMove? ==> c.s.roster != [])
  {
    match m
    case PassMove(sent) => lost + LostTasks(c.job, c.s, sent)
    case DefineMove(_, _, _, _) => 0
    case _ => lost
  }

  lemma JobOfInv(c: Cluster, a: Audit)
    requires Inv(c, a)
    ensures JobOk(c.job)
  {
    hide StrayInv, FlightInv, Unsent, Peers, JobOk;
  }

  // One move of anybody keeps the whole invariant.
  lemma MoveKeeps(c: Cluster, a: Audit, m: Move) returns (b: Audit)
    requires Inv(c, a) && CanMove(c, m)
    ensures JobOk(c.job)
    ensures !MoveStep(c, m).s.error ==> Inv(MoveStep(c, m), b) && b.lost == MoveLost(c, m, a.lost)
  {
    hide Inv, PassStep, HearStep, DefineStep, PeerStep, Cleanup, Lost, LostTasks, JobOk, Able, LoopEnds;
    JobOfInv(c, a);
    b := a;
    match m
    case PassMove(sent) => b := PassMoveKeeps(c, a, sent);
    case SweepMove => b := SweepMoveKeeps(c, a);
    case LoseMove(w) =>
      LoseMoveKeeps(c, a, w, false);
      b := AfterFailure(a, c.s, w);
    case HearMove(w, i, initSent, defSent, idsSent) => b := HearMoveKeeps(c, a, w, i, initSent, defSent, idsSent);
    case PeerMove(w, act) => PeerMoveKeeps(c, a, w, act);
    case StartMove(w, have) => StartMoveKeeps(c, a, w, have);
    case AbortMove =>
    case DefineMove(job, order, gotDef, gotIds) =>
      DefineMoveKeeps(c, a, job, order, gotDef, gotIds);
      b := Audit(0, map[]);
  }

  ghost predicate LegalMoves(c: Cluster, ms: seq<Move>)
    decreases |ms|
  {
    ms == [] || (JobOk(c.job) && CanMove(c, ms[0]) && LegalMoves(MoveStep(c, ms[0]), ms[1..]))
  }

  ghost function RunMoves(c: Cluster, ms: seq<Move>): Cluster
    requires LegalMoves(c, ms)
    decreases |ms|
  {
    if ms == [] then c else RunMoves(MoveStep(c, ms[0]), ms[1..])
  }

  // Tasks in failed sends since the current definition began.
  ghost function LostSince(c: Cluster, ms: seq<Move>, lost: nat): nat
    requires LegalMoves(c, ms)
    decreases |ms|
  {
    if ms == [] then lost else LostSince(MoveStep(c, ms[0]), ms[1..], MoveLost(c, ms[0], lost))
  }

  lemma NoMoveAfterError(c: Cluster, ms: seq<Move>)
    requires LegalMoves(c, ms) && c.s.error
    ensures ms == []
  {
    hide MoveStep;
  }

  lemma {:induction false} MovesKeep(c: Cluster, a: Audit, ms: seq<Move>) returns (b: Audit)
    requires Inv(c, a) && LegalMoves(c, ms)
    ensures !RunMoves(c, ms).s.error ==> Inv(RunMoves(c, ms), b) && b.lost == LostSince(c, ms, a.lost)
    decreases |ms|
  {
    hide Inv, MoveStep, CanMove, MoveLost;
    b := a;
    if ms != [] {
      var d := MoveStep(c, ms[0]);
      var e := MoveKeeps(c, a, ms[0]);
      if d.s.error {
        NoMoveAfterError(d, ms[1..]);
      } else {
        b := MovesKeep(d, e, ms[1..]);
      }
    }
  }

  // ----- a session that has just started

  ghost predicate Waiting(p: Peer) { p.inbox == [] && p.deferred == [] && p.outbox == [] && p.bench.None? }

  // Workers are registered and idle, nothing has been dispatched yet; whoever else there is has not joined.
  ghost predicate Connected(c: Cluster) {
    && StartOk(c.s.roster, c.s.index) && !c.s.error && (!c.job.tcp ==> c.s.failed == {})
    && (forall w :: w in c.s.index ==> w in c.peers && Waiting(c.peers[w]))
    && (forall w :: w in c.peers && w !in c.s.index ==> Outsider(c.peers[w]))
  }

  ghost predicate CanStart(c: Cluster, job: Job, order: Order, gotDef: set<Worker>, gotIds: set<Worker>) {
    && Connected(c) && JobOk(job) && job.tcp == c.job.tcp
    && (!job.tcp ==> forall w :: w in c.s.index ==> Announced(order, w in gotDef, w in gotIds))
  }

  lemma WaitingMember(lo: Coords, hi: Coords, o: Order, p: Peer)
    requires IsBox(lo, hi) && Waiting(p)
    ensures Member(lo, hi, o, Knows(p, o), p, [], {})
  {
  }

  lemma StartedMember(c: Cluster, job: Job, order: Order, gotDef: set<Worker>, gotIds: set<Worker>, w: Worker)
    requires CanStart(c, job, order, gotDef, gotIds) && w in c.s.index
    ensures MemberOf(DefineStep(c, job, order, gotDef, gotIds), w)
  {
    hide Waiting, Member, Shaking, Outsider, Announce, Announced, Post, Identity, Knows;
    var d := DefineStep(c, job, order, gotDef, gotIds);
    WaitingMember(job.lo, job.hi, order, c.peers[w]);
    NewOrder(job.lo, job.hi, order, Knows(c.peers[w], order), c.peers[w], {}, job.lo, job.hi, order,
             w in gotDef, w in gotDef && w in gotIds);
    assert DoneOf(d.s, w) == {};
  }

  lemma StartKeeps(c: Cluster, job: Job, order: Order, gotDef: set<Worker>, gotIds: set<Worker>)
    requires CanStart(c, job, order, gotDef, gotIds)
    ensures Inv(DefineStep(c, job, order, gotDef, gotIds), Audit(0, map[]))
  {
    hide StrayInv, FlightInv, Member, Shaking, Outsider, MemberOf, Announced, Waiting, Identity, Begin, Knows;
    var d := DefineStep(c, job, order, gotDef, gotIds);
    BeginInv(job, c.s.roster, c.s.index, c.s.failed + Unreached(c, order, gotDef, gotIds));
    BeginFlight(job, c.s.roster, c.s.index, c.s.failed + Unreached(c, order, gotDef, gotIds));
    BeginFields(job, c.s.roster, c.s.index, c.s.failed + Unreached(c, order, gotDef, gotIds));
    forall w | w in d.s.index ensures MemberOf(d, w) {
      StartedMember(c, job, order, gotDef, gotIds, w);
    }
  }
}

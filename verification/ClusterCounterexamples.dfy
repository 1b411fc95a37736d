// Sessions in which a late worker is left out or runs its tasks under another definition.
module ClusterCounterexamples {
  import opened Collections
  import opened TaskState
  import opened Odometer
  import opened Supervisor
  import opened SupervisorInvariant
  import opened SupervisorSteps
  import opened SupervisorDispatch
  import opened SupervisorRuns
  import opened Flight
  import opened Completion
  import opened Workers
  import opened Cluster
  import opened ClusterProgress
  import Sessions = ClusterTheorems

  // ----- an INIT whose answer is heard

  // The answer to INIT registers the worker exactly if the INIT belongs to the current definition.
  lemma InitedRegistersIff(c: Cluster, a: Audit, w: Worker, i: nat, initSent: bool, defSent: bool, idsSent: bool)
    requires Inv(c, a) && CanMove(c, HearMove(w, i, initSent, defSent, idsSent)) && c.peers[w].outbox[0].Inited?
    ensures w in HearStep(c, w, i, initSent, defSent, idsSent).s.index <==> c.job.tcp && w in c.s.joining
  {
    hide Inv, Heard, Post, Announce, Knows, Identity, Able;
    ApartIndex(c, a, w);
  }

  // Outside, with no READY under way: nothing will bring the worker in.
  ghost predicate Forgotten(c: Cluster, w: Worker) {
    w !in c.s.index && w !in c.s.joining && (w in c.peers ==> Hello !in c.peers[w].outbox)
  }

  lemma InitedIsForgotten(c: Cluster, a: Audit, w: Worker, i: nat, initSent: bool, defSent: bool, idsSent: bool)
    requires Inv(c, a) && CanMove(c, HearMove(w, i, initSent, defSent, idsSent)) && c.peers[w].outbox[0].Inited?
    requires w !in c.s.joining
    ensures Forgotten(HearStep(c, w, i, initSent, defSent, idsSent), w)
  {
    hide StrayInv, FlightInv, Unsent, MemberOf, Identity, Able, SaidGoodbye;
    ApartIndex(c, a, w);
    var p := c.peers[w];
    assert Outsider(p);
    if Hello in p.outbox {
      NoGreetings(p.outbox[1..]);
      assert false;
    }
  }

  // No single move but a start of the worker itself changes that.
  lemma ForgottenMove(c: Cluster, a: Audit, m: Move, w: Worker)
    requires Inv(c, a) && CanMove(c, m) && JobOk(c.job) && Forgotten(c, w) && !(m.StartMove? && m.w == w)
    ensures !MoveStep(c, m).s.error ==> Forgotten(MoveStep(c, m), w)
  {
    hide StrayInv, FlightInv, Unsent, Peers, Dispatch, Pick, PassBatch, AfterPass, Cleanup, FailWorker, Lost, Heard, Post;
    hide PeerStep, Able, LoopEnds, Announce, Announced, Knows, Identity, Answered, JobOk, Begin;
    match m
    case PassMove(sent) => PassKeepsOut(c, a, sent, w);
    case SweepMove => CleanupFields(c.job, c.s, a, {});
    case LoseMove(v) => LostKeepsOut(c.job, c.s, a, v, false, w);
    case HearMove(v, i, initSent, defSent, idsSent) => HearKeepsOut(c, a, v, i, initSent, defSent, idsSent, w);
    case PeerMove(v, act) =>
      if v == w {
        TalkHasNoHello(c.peers[w], act);
      }
    case DefineMove(job, order, gotDef, gotIds) =>
      BeginFields(job, c.s.roster, c.s.index, c.s.failed + Unreached(c, order, gotDef, gotIds));
    case _ =>
  }

  lemma PassKeepsOut(c: Cluster, a: Audit, sent: bool, w: Worker)
    requires Inv(c, a) && JobOk(c.job) && c.s.roster != [] && !c.s.error && Forgotten(c, w)
    ensures !PassStep(c, sent).s.error ==> Forgotten(PassStep(c, sent), w)
  {
    hide StrayInv, FlightInv, Unsent, Peers, Dispatch, Pick, PassBatch, AfterPass, Ids, SameStanding;
    PassStanding(c.job, c.s, a, sent, w);
    if !PassStep(c, sent).s.error && w in Dispatch(c.job, c.s, sent).index {
      StandingIndex(c.s, Dispatch(c.job, c.s, sent), w);
    }
  }

  lemma LostKeepsOut(job: Job, s: Sup, a: Audit, v: Worker, grace: bool, w: Worker)
    requires SupInv(job, s, a) && w !in s.index && w !in s.joining
    ensures w !in Lost(s, v, grace).index && w !in Lost(s, v, grace).joining
  {
    hide StrayInv, FailWorker, FailEffect;
    FailWorkerIs(job, s, a, {}, v);
    FailFields(s, v, FailWorker(s, v));
  }

  lemma HearKeepsOut(c: Cluster, a: Audit, v: Worker, i: nat, initSent: bool, defSent: bool, idsSent: bool, w: Worker)
    requires Inv(c, a) && CanMove(c, HearMove(v, i, initSent, defSent, idsSent)) && Forgotten(c, w)
    ensures Forgotten(HearStep(c, v, i, initSent, defSent, idsSent), w)
  {
    hide StrayInv, FlightInv, Unsent, Peers, Answered, Lost, Announce, Knows, Identity, Able;
    var p := c.peers[v];
    assert v == w ==> p.outbox[0] in p.outbox && forall r :: r in Heard(p).outbox ==> r in p.outbox;
    match p.outbox[0]
    case Answer(ids) => AnswerKeepsOut(c, a, v, ids, w);
    case Goodbye => LostKeepsOut(c.job, c.s, a, v, c.job.tcp, w);
    case _ =>
  }

  lemma AnswerKeepsOut(c: Cluster, a: Audit, v: Worker, ids: seq<Id>, w: Worker)
    requires Inv(c, a) && !c.s.error && v in c.peers && c.peers[v].outbox != [] && c.peers[v].outbox[0] == Answer(ids)
    ensures Answered(c.s, v, ids).index == c.s.index && Answered(c.s, v, ids).joining == c.s.joining
  {
    hide Inv, Answered, AnswerEffect, Settled, OwnedBy;
    if v in c.s.index {
      AnswerHeardEffect(c, a, v);
      AnswerSettles(c.s, v, ids, Answered(c.s, v, ids));
      SettledFields(c.s, v, ToSet(ids), Answered(c.s, v, ids));
    } else {
      StaleIgnored(c.s, v, ids);
    }
  }

  lemma SettledFields(s: Sup, w: Worker, ids: set<Id>, u: Sup)
    requires Settled(s, w, ids, u)
    ensures u.index == s.index && u.joining == s.joining
  {
  }

  ghost predicate Restarts(ms: seq<Move>, w: Worker) { exists k :: 0 <= k < |ms| && ms[k].StartMove? && ms[k].w == w }

  // A worker that has been forgotten stays outside for good, over this and all later definitions,
  // unless its process starts again.
  lemma {:induction false} ForgottenStays(c: Cluster, a: Audit, ms: seq<Move>, w: Worker)
    requires Inv(c, a) && LegalMoves(c, ms) && Forgotten(c, w) && !Restarts(ms, w)
    ensures !RunMoves(c, ms).s.error ==> Forgotten(RunMoves(c, ms), w)
    decreases |ms|
  {
    hide Inv, MoveStep, CanMove, Forgotten, JobOk;
    if ms != [] {
      var d := MoveStep(c, ms[0]);
      JobOfInv(c, a);
      ForgottenMove(c, a, ms[0], w);
      var b := MoveKeeps(c, a, ms[0]);
      if d.s.error {
        NoMoveAfterError(d, ms[1..]);
      } else {
        assert forall k :: 0 <= k < |ms[1..]| ==> ms[1..][k] == ms[k + 1];
        ForgottenStays(d, b, ms[1..], w);
      }
    }
  }

  // ----- a worker starts, says READY and answers INIT

  // The worker is known to the session only through the INIT it was sent.
  ghost predicate Invited(c: Cluster, w: Worker, have: Def) {
    && w !in c.s.index && w in c.s.joining && w in c.peers
    && c.peers[w] == Peer([Init], [], [], have, None, map[], true)
  }

  // Nothing but this worker differs.
  ghost predicate OnlyAt(c: Cluster, d: Cluster, w: Worker) {
    && d.job == c.job && d.order == c.order && d.flight == c.flight && d.untold == c.untold
    && d.s == c.s.(joining := d.s.joining)
    && (forall v :: v in c.peers && v != w ==> v in d.peers && d.peers[v] == c.peers[v])
  }

  lemma Starts(c: Cluster, w: Worker, have: Def)
    requires JobOk(c.job) && c.job.tcp && !c.s.error && w !in c.s.index && have.ids == []
    ensures CanMove(c, StartMove(w, have)) && MoveStep(c, StartMove(w, have)) == c.(peers := c.peers[w := NewPeer(have)])
    ensures Leads(c, [StartMove(w, have)], MoveStep(c, StartMove(w, have)))
  {
    hide Leads, LegalMoves, RunMoves, JobOk;
    LeadsOne(c, StartMove(w, have));
  }

  lemma SaysReady(c: Cluster, w: Worker, i: nat, have: Def)
    requires JobOk(c.job) && c.job.tcp && !c.s.error && w == Identity(i) && w !in c.s.index && w !in c.s.joining
    requires w in c.peers && c.peers[w] == NewPeer(have)
    ensures CanMove(c, HearMove(w, i, true, true, true))
    ensures var d := MoveStep(c, HearMove(w, i, true, true, true));
            Leads(c, [HearMove(w, i, true, true, true)], d) && Invited(d, w, have) && OnlyAt(c, d, w)
  {
    hide Leads, LegalMoves, RunMoves, Identity, JobOk;
    assert [Hello][1..] == [] && [] + [Init] == [Init];
    LeadsOne(c, HearMove(w, i, true, true, true));
  }

  lemma Invite(c: Cluster, w: Worker, i: nat, have: Def) returns (ms: seq<Move>, d: Cluster)
    requires JobOk(c.job) && c.job.tcp && !c.s.error && w == Identity(i) && w !in c.s.index && w !in c.s.joining
    requires have.ids == []
    ensures Leads(c, ms, d) && Invited(d, w, have) && OnlyAt(c, d, w)
    ensures ms == [StartMove(w, have), HearMove(w, i, true, true, true)]
  {
    hide Leads, LegalMoves, RunMoves, Identity, JobOk, MoveStep, CanMove, Invited;
    var (start, hear) := (StartMove(w, have), HearMove(w, i, true, true, true));
    Starts(c, w, have);
    var e := MoveStep(c, start);
    SaysReady(e, w, i, have);
    d := MoveStep(e, hear);
    LeadsChain(c, [start], e, [hear], d);
    ms := [start, hear];
    assert [start] + [hear] == ms;
  }

  lemma InviteOnward(w: Worker, i: nat, have: Def)
    ensures Onward([StartMove(w, have), HearMove(w, i, true, true, true)])
  {
  }

  lemma RepliesToInit(c: Cluster, w: Worker, have: Def)
    requires JobOk(c.job) && !c.s.error && w in c.peers && c.peers[w] == Peer([Init], [], [], have, None, map[], true)
    ensures CanMove(c, PeerMove(w, DoTake(false)))
    ensures var d := MoveStep(c, PeerMove(w, DoTake(false)));
            && Leads(c, [PeerMove(w, DoTake(false))], d)
            && d == c.(peers := c.peers[w := Peer([], [], [Inited], have, None, map[], true)])
  {
    hide Leads, LegalMoves, RunMoves, JobOk;
    assert [Init][1..] == [] && [] + [Inited] == [Inited];
    LeadsOne(c, PeerMove(w, DoTake(false)));
  }

  // The answer is heard and none of the catch-up messages goes out.
  lemma JoinsUntold(c: Cluster, w: Worker, i: nat, have: Def)
    requires JobOk(c.job) && c.job.tcp && !c.s.error && w == Identity(i) && w in c.s.joining && w in c.peers
    requires c.peers[w] == Peer([], [], [Inited], have, None, map[], true) && !Matches(have, c.order)
    ensures CanMove(c, HearMove(w, i, true, false, false))
    ensures var d := MoveStep(c, HearMove(w, i, true, false, false));
            && Leads(c, [HearMove(w, i, true, false, false)], d)
            && d == c.(s := InitAck(c.s, w), flight := c.flight - {w}, untold := c.untold + {w},
                       peers := c.peers[w := Peer([], [], [], have, None, map[], true)])
  {
    hide Leads, LegalMoves, RunMoves, JobOk, Identity, Matches, InitAck;
    assert [Inited][1..] == [] && Announce(c.order, false, false) == [];
    assert Queue(Peer([], [], [], have, None, map[], true)) == [];
    LeadsOne(c, HearMove(w, i, true, false, false));
  }

  // A registered worker with nothing to do that does not know the order.
  ghost predicate IdleUntold(c: Cluster, w: Worker, have: Def) {
    && Live(c, w) && !Told(c, w) && FlightOf(c.flight, w) == [] && c.s.hasMore
    && c.peers[w] == Peer([], [], [], have, None, map[], true)
  }

  lemma JoinedIdle(c: Cluster, w: Worker, have: Def)
    requires JobOk(c.job) && w in c.s.joining && w !in c.s.failed && c.s.hasMore
    ensures IdleUntold(c.(s := InitAck(c.s, w), flight := c.flight - {w}, untold := c.untold + {w},
                          peers := c.peers[w := Peer([], [], [], have, None, map[], true)]), w, have)
  {
    hide RemoveFirst;
  }

  // All other workers are given up.
  lemma LoseOthers(c: Cluster, a: Audit, w: Worker, have: Def) returns (ms: seq<Move>, d: Cluster)
    requires Inv(c, a) && !c.s.error && IdleUntold(c, w, have)
    ensures Leads(c, ms, d) && Onward(ms) && IdleUntold(d, w, have) && d.s.index.Keys == {w} && !d.s.error
    ensures d.order == c.order && d.job == c.job
    decreases |c.s.index|
  {
    hide Inv, Leads, MoveStep, CanMove, Onward, LegalMoves, RunMoves, JobOk;
    if v :| v in c.s.index && v != w {
      DropOne(c, a, w, v);
      var e := MoveStep(c, LoseMove(v));
      OneOnward(LoseMove(v));
      var b := LeadsKeeps(c, a, [LoseMove(v)], e);
      ms, d := LoseOthers(e, b, w, have);
      LeadsChain(c, [LoseMove(v)], e, ms, d);
      OnwardChain([LoseMove(v)], ms);
      ms := [LoseMove(v)] + ms;
    } else {
      LeadsNothing(c);
      ms, d := [], c;
    }
  }

  // The only worker left gets the next batch.
  lemma OnlyWorkerGets(c: Cluster, a: Audit, w: Worker, have: Def)
    requires Inv(c, a) && JobOk(c.job) && !c.s.error && a.lost == 0 && IdleUntold(c, w, have) && c.s.index.Keys == {w}
    ensures CanMove(c, PassMove(true))
    ensures var (d, batch) := (MoveStep(c, PassMove(true)), PassBatch(c.job, c.s));
            && Leads(c, [PassMove(true)], d) && !d.s.error && Live(d, w) && !Told(d, w) && d.order == c.order
            && batch != [] && d.peers[w] == Peer([Work(batch)], [], [], have, None, map[], true)
  {
    hide StrayInv, FlightInv, Unsent, Peers, Leads, LegalMoves, RunMoves, Dispatch, Pick, PassBatch, AfterPass, JobOk;
    CanContinue(c.job, c.s, a, c.flight, w);
    PassMakesProgress(c.job, c.s, a, c.flight);
    SentPass(c.job, c.s, a);
    PassWorker(c, a);
    LeadsOne(c, PassMove(true));
  }

  // It runs the first task of the batch at its next step, or the one after.
  lemma RunsFirstTask(c: Cluster, w: Worker, have: Def, batch: seq<(Id, Payload)>) returns (ms: seq<Move>, d: Cluster, act: Act)
    requires JobOk(c.job) && !c.s.error && w in c.peers && batch != []
    requires c.peers[w] == Peer([Work(batch)], [], [], have, None, map[], true)
    ensures Leads(c, ms, d) && d == c.(peers := d.peers) && w in d.peers && d.peers[w].have == have
    ensures Able(d.peers[w], act) && Sessions.TaskRun(d.peers[w], act) == Some(batch[0])
  {
    hide Leads, LegalMoves, RunMoves, JobOk;
    if |batch| == 1 {
      LeadsNothing(c);
      return [], c, DoTake(false);
    }
    LeadsOne(c, PeerMove(w, DoTake(false)));
    ms, d, act := [PeerMove(w, DoTake(false))], MoveStep(c, PeerMove(w, DoTake(false))), DoNext(false);
  }

  // However a session begins, a worker can join late, miss the catch-up messages and run a task of the
  // box under a definition, or with ids, that are not those of the order.
  lemma UntoldRunsElsewhere(h: Sessions.Session, w: Worker, i: nat, have: Def) returns (k: Sessions.Session, act: Act)
    requires CanStart(h.base, h.job, h.order, h.gotDef, h.gotIds) && h.job.tcp && h.moves == []
    requires w == Identity(i) && w !in h.base.s.index && w !in h.base.s.failed
    requires have.ids == [] && !Matches(have, h.order)
    ensures Sessions.Legal(k) && k == h.(moves := k.moves) && !Sessions.End(k).s.error
    ensures var c := Sessions.End(k);
            && c.order == h.order && Live(c, w) && !Told(c, w) && !Matches(c.peers[w].have, c.order)
            && Able(c.peers[w], act) && Sessions.TaskRun(c.peers[w], act).Some?
  {
    hide CanStart, Leads, Inv, Invited, OnlyAt, IdleUntold, MoveStep, CanMove, Matches, Identity, JobOk, Onward, DefineStep;
    hide LegalMoves, RunMoves;
    var c := Sessions.First(h);
    StartKeeps(h.base, h.job, h.order, h.gotDef, h.gotIds);
    FirstIs(h, w);
    var ms, d := JoinsIdle(c, Audit(0, map[]), w, i, have);
    var b := LeadsKeeps(c, Audit(0, map[]), ms, d);
    var others, e := LoseOthers(d, b, w, have);
    b := LeadsKeeps(d, b, others, e);
    JobOfInv(e, b);
    OnlyWorkerGets(e, b, w, have);
    var f := MoveStep(e, PassMove(true));
    OnwardPass(e, b, f);
    var last, g;
    last, g, act := RunsFirstTask(f, w, have, PassBatch(e.job, e.s));
    LeadsChain(c, ms, d, others, e);
    LeadsChain(c, ms + others, e, [PassMove(true)], f);
    LeadsChain(c, ms + others + [PassMove(true)], f, last, g);
    k := h.(moves := ms + others + [PassMove(true)] + last);
    SessionIs(h, k, g);
  }

  lemma OnwardPass(c: Cluster, a: Audit, d: Cluster)
    requires Inv(c, a) && Leads(c, [PassMove(true)], d) && !d.s.error
    ensures JobOk(d.job)
  {
    hide Inv, Leads;
    OneOnward(PassMove(true));
    var b := LeadsKeeps(c, a, [PassMove(true)], d);
    JobOfInv(d, b);
  }

  lemma FirstIs(h: Sessions.Session, w: Worker)
    requires CanStart(h.base, h.job, h.order, h.gotDef, h.gotIds) && w !in h.base.s.index && w !in h.base.s.failed
    ensures var c := Sessions.First(h);
            && c.job == h.job && c.order == h.order && JobOk(c.job) && c.s.joining == map[] && c.s.hasMore && !c.s.error
            && w !in c.s.index && w !in c.s.failed
  {
    hide Waiting, Outsider, Identity, JobOk, Announced, Ordered;
  }

  lemma SessionIs(h: Sessions.Session, k: Sessions.Session, d: Cluster)
    requires CanStart(h.base, h.job, h.order, h.gotDef, h.gotIds) && k == h.(moves := k.moves)
    requires Leads(Sessions.First(h), k.moves, d)
    ensures Sessions.Legal(k) && Sessions.End(k) == d
  {
    hide CanStart, DefineStep, LegalMoves, RunMoves;
  }

  // The four moves by which a worker joins without being told.
  lemma JoinsIdle(c: Cluster, a: Audit, w: Worker, i: nat, have: Def) returns (ms: seq<Move>, d: Cluster)
    requires Inv(c, a) && JobOk(c.job) && c.job.tcp && !c.s.error && w == Identity(i) && have.ids == []
    requires w !in c.s.index && w !in c.s.joining && w !in c.s.failed && c.s.hasMore && !Matches(have, c.order)
    ensures Leads(c, ms, d) && Onward(ms) && IdleUntold(d, w, have) && !d.s.error && d.order == c.order && d.job == c.job
  {
    hide Inv, Leads, LegalMoves, RunMoves, Identity, Matches, JobOk, MoveStep, CanMove;
    var first, e := Invite(c, w, i, have);
    InviteOnward(w, i, have);
    RepliesToInit(e, w, have);
    var reply := PeerMove(w, DoTake(false));
    var f := MoveStep(e, reply);
    LeadsChain(c, first, e, [reply], f);
    var hear := HearMove(w, i, true, false, false);
    JoinsUntold(f, w, i, have);
    d := MoveStep(f, hear);
    LeadsChain(c, first + [reply], f, [hear], d);
    JoinedIdle(f, w, have);
    ms := first + [reply] + [hear];
  }

  // ----- a join that comes too late

  // However a session begins and whatever comes after its first definition, a worker can be sent INIT
  // before that definition has ended and answer it after: it lives, waits, and stays outside for good.
  lemma MissedJoin(h: Sessions.Session, v: Worker, w: Worker, i: nat, have: Def, define: Move)
      returns (before: Sessions.Session, after: Sessions.Session)
    requires CanStart(h.base, h.job, h.order, h.gotDef, h.gotIds) && h.job.tcp && h.moves == []
    requires Live(Sessions.First(h), v) && w == Identity(i) && w !in h.base.s.index && w !in h.base.s.failed
    requires have.ids == [] && define.DefineMove? && JobOk(define.job) && define.job.tcp
    ensures Sessions.Legal(before) && Sessions.Legal(after)
    ensures after == before.(moves := before.moves + [define, PeerMove(w, DoTake(false)), HearMove(w, i, true, true, true)])
    ensures w in Sessions.End(before).s.joining && LoopEnds(Sessions.End(before).s)
    ensures var c := Sessions.End(after); !c.s.error && Forgotten(c, w) && w in c.peers && c.peers[w].alive
  {
    hide CanStart, Leads, Inv, Invited, OnlyAt, MoveStep, CanMove, Identity, JobOk, Onward, DefineStep, Live, Kept, LoopEnds;
    hide LegalMoves, RunMoves, Forgotten;
    var c := Sessions.First(h);
    StartKeeps(h.base, h.job, h.order, h.gotDef, h.gotIds);
    FirstIs(h, w);
    var ms, d := InvitedAtEnd(c, Audit(0, map[]), v, w, i, have);
    var b := LeadsKeeps(c, Audit(0, map[]), ms, d);
    var rest, e := AnswersTooLate(d, b, w, i, have, define);
    before, after := h.(moves := ms), h.(moves := ms + rest);
    SessionIs(h, before, d);
    LeadsChain(c, ms, d, rest, e);
    SessionIs(h, after, e);
    InvitedIs(d, w, have);
  }

  lemma InvitedIs(c: Cluster, w: Worker, have: Def)
    requires Invited(c, w, have)
    ensures w in c.s.joining && w !in c.s.index && w in c.peers && c.peers[w] == Peer([Init], [], [], have, None, map[], true)
  {
  }

  // INIT goes out, and the definition ends before the answer is heard.
  lemma InvitedAtEnd(c: Cluster, a: Audit, v: Worker, w: Worker, i: nat, have: Def) returns (ms: seq<Move>, d: Cluster)
    requires Inv(c, a) && JobOk(c.job) && c.job.tcp && !c.s.error && a.lost == 0 && Live(c, v)
    requires w == Identity(i) && w !in c.s.index && w !in c.s.joining && have.ids == []
    ensures Leads(c, ms, d) && Onward(ms) && Invited(d, w, have) && LoopEnds(d.s) && !d.s.error && d.job == c.job
  {
    hide Inv, Leads, LegalMoves, RunMoves, Identity, JobOk, MoveStep, CanMove, LoopEnds, Onward, Kept, TotalTasks;
    var first, e := Invite(c, w, i, have);
    InviteOnward(w, i, have);
    var b := LeadsKeeps(c, a, first, e);
    var rest;
    rest, d := CompletingMoves(e, b, v);
    KeptIs(e, d, v);
    KeptOutside(e, d, v, w);
    LeadsChain(c, first, e, rest, d);
    OnwardChain(first, rest);
    ms := first + rest;
  }

  lemma KeptOutside(c: Cluster, d: Cluster, v: Worker, w: Worker)
    requires Kept(c, d, v) && w in c.peers && w !in c.s.index
    ensures w in d.peers && d.peers[w] == c.peers[w] && w !in d.s.index
  {
    hide Live;
  }

  lemma AnswersTooLate(c: Cluster, a: Audit, w: Worker, i: nat, have: Def, define: Move) returns (ms: seq<Move>, d: Cluster)
    requires Inv(c, a) && JobOk(c.job) && c.job.tcp && !c.s.error && Invited(c, w, have) && LoopEnds(c.s) && w == Identity(i)
    requires define.DefineMove? && JobOk(define.job) && define.job.tcp
    ensures ms == [define, PeerMove(w, DoTake(false)), HearMove(w, i, true, true, true)]
    ensures Leads(c, ms, d) && !d.s.error && Forgotten(d, w) && w in d.peers && d.peers[w].alive
  {
    hide Inv, Leads, LegalMoves, RunMoves, Identity, JobOk, LoopEnds, MoveStep, Forgotten, HearStep;
    var (take, hear) := (PeerMove(w, DoTake(false)), HearMove(w, i, true, true, true));
    LeadsOne(c, define);
    var e := MoveStep(c, define);
    DefinesAround(c, w, define);
    var b := MoveKeeps(c, a, define);
    RepliesToInit(e, w, have);
    var f := MoveStep(e, take);
    OneOnward(take);
    b := LeadsKeeps(e, b, [take], f);
    HearsTooLate(f, b, w, i, have);
    d := MoveStep(f, hear);
    LeadsChain(c, [define], e, [take], f);
    LeadsChain(c, [define] + [take], f, [hear], d);
    ms := [define] + [take] + [hear];
  }

  lemma DefinesAround(c: Cluster, w: Worker, define: Move)
    requires define.DefineMove? && CanMove(c, define) && JobOk(c.job) && w !in c.s.index && w in c.peers
    ensures var d := MoveStep(c, define);
            && !d.s.error && d.s.joining == map[] && d.s.index == c.s.index && d.job == define.job
            && w in d.peers && d.peers[w] == c.peers[w]
  {
    hide JobOk, LoopEnds, Announced, Announce, Knows, Post;
  }

  lemma HearsTooLate(c: Cluster, a: Audit, w: Worker, i: nat, have: Def)
    requires Inv(c, a) && JobOk(c.job) && !c.s.error && w == Identity(i) && w in c.peers && w !in c.s.joining
    requires c.peers[w] == Peer([], [], [Inited], have, None, map[], true)
    ensures var hear := HearMove(w, i, true, true, true);
            && CanMove(c, hear)
            && var d := MoveStep(c, hear);
               Leads(c, [hear], d) && !d.s.error && Forgotten(d, w) && w in d.peers && d.peers[w].alive
  {
    hide Inv, Leads, LegalMoves, RunMoves, Identity, JobOk, Forgotten;
    InitedIsForgotten(c, a, w, i, true, true, true);
    LeadsOne(c, HearMove(w, i, true, true, true));
  }
}

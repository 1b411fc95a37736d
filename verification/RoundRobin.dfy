// Which worker a message goes to: the workers take turns, and over TCP those that may not take another
// message are passed over.
module RoundRobin {
  import opened Collections
  import opened TaskState
  import opened Odometer
  import opened Supervisor
  import opened SupervisorInvariant
  import opened SupervisorSteps
  import opened SupervisorDispatch
  import opened SupervisorRuns
  import opened Flight

  // ----- one pass

  // Without TCP the worker at the position is taken as it is; over TCP the first one from there on that is
  // neither marked nor at its cap.
  lemma PickIsNext(job: Job, s: Sup)
    requires s.roster != []
    ensures var (c, n) := (Pick(job, s), |s.roster|);
            && (!job.tcp ==> c.found && c.turn == s.turn)
            && (c.found ==> c.worker == s.roster[c.turn % n])
            && (job.tcp && c.found ==> s.turn <= c.turn < s.turn + n)
            && (job.tcp ==> forall k :: s.turn <= k < (if c.found then c.turn else s.turn + n) ==>
                              var w := s.roster[k % n]; w in s.failed || Unanswered(s, w) >= job.cap)
            && (job.tcp && c.found ==> c.worker !in s.failed && Unanswered(s, c.worker) < job.cap)
  {
    if job.tcp {
      SearchIsNext(job, s, s.turn, |s.roster|);
    }
  }

  lemma {:induction false} SearchIsNext(job: Job, s: Sup, turn: nat, left: nat)
    requires s.roster != []
    ensures var (c, n) := (Search(job, s, turn, left), |s.roster|);
            && (c.found ==> turn <= c.turn < turn + left && c.worker == s.roster[c.turn % n] && Eligible(job, s, c.worker))
            && (forall k :: turn <= k < (if c.found then c.turn else turn + left) ==> !Eligible(job, s, s.roster[k % n]))
    decreases left
  {
    if left > 0 && !Eligible(job, s, s.roster[turn % |s.roster|]) {
      SearchIsNext(job, s, turn + 1, left - 1);
    }
  }

  // A message that goes out moves the position past its worker; a pass that sends nothing leaves it at
  // the worker it found.
  lemma TurnMoves(job: Job, s: Sup, a: Audit, sent: bool)
    requires SupInv(job, s, a) && JobOk(job) && !s.error && s.roster != [] && !Dispatch(job, s, sent).error
    ensures var u := Dispatch(job, s, sent);
            && (sent && PassBatch(job, s) != [] ==> u.turn == Pick(job, s).turn + 1)
            && (PassBatch(job, s) == [] ==> u.turn == Pick(job, s).turn)
  {
    hide StrayInv, FillInv, Fill, Cleanup, Dispatch, Pick, SendFailed;
    DispatchCases(job, s, sent);
    PickIs(job, s);
    var (c, u) := (Pick(job, s), s.(turn := Pick(job, s).turn));
    Unrelated(job, s, a, {}, u);
    if c.found {
      RosterRegistered(job, s, a, {}, c.worker);
      FillKeeps(job, u, a, c.worker);
      FillParts(job, u, a, Fill(job, u, c.worker), c.worker);
    }
  }

  // ----- whole runs without TCP

  // The workers that get the messages of a run, in order.
  ghost function SentTo(job: Job, s: Sup, es: seq<Event>): seq<Worker>
    requires JobOk(job) && Legal(job, s, es)
    decreases |es|
  {
    if es == [] then []
    else
      (if es[0] == Pass(true) && PassBatch(job, s) != [] then [Pick(job, s).worker] else [])
      + SentTo(job, Step(job, s, es[0]), es[1..])
  }

  // Nobody joins or is removed, and nothing ends the run.
  ghost predicate Steady(job: Job, s: Sup, es: seq<Event>)
    requires JobOk(job) && Legal(job, s, es)
    decreases |es|
  {
    es == [] || (Step(job, s, es[0]).roster == s.roster && !Step(job, s, es[0]).error
                 && Steady(job, Step(job, s, es[0]), es[1..]))
  }

  function Cyclic<T>(ws: seq<T>, turn: nat, n: nat): seq<T>
    requires ws != []
  {
    seq(n, k requires 0 <= k => ws[(turn + k) % |ws|])
  }

  lemma CyclicFront<T>(ws: seq<T>, turn: nat, n: nat)
    requires ws != []
    ensures Cyclic(ws, turn, n + 1) == [ws[turn % |ws|]] + Cyclic(ws, turn + 1, n)
  {
    var (a, b) := (Cyclic(ws, turn, n + 1), [ws[turn % |ws|]] + Cyclic(ws, turn + 1, n));
    forall k | 0 <= k < |a| ensures a[k] == b[k] {
      assert turn + k == (turn + 1) + (k - 1);
    }
  }

  // Only passes touch the position.
  lemma OtherTurn(job: Job, s: Sup, a: Audit, e: Event)
    requires SupInv(job, s, a) && JobOk(job) && Enabled(job, s, e) && !e.Pass? && Step(job, s, e).roster == s.roster
    ensures Step(job, s, e).turn == s.turn
  {
    hide StrayInv, Ack, AckB, Lost, Cleanup;
    match e
    case Sweep => SweepTurn(job, s, a);
    case GotAck(w, id) => AckTurn(s, w, id);
    case GotAckB(w, ids) => AckBTurn(s, w, ids);
    case Lose(w, grace) => LoseTurn(job, s, a, w, grace);
    case _ =>
  }

  lemma AckTurn(s: Sup, w: Worker, id: Id)
    ensures Ack(s, w, id).turn == s.turn
  {
    hide Done, CountUp;
  }

  lemma {:induction false} TokensTurn(s: Sup, w: Worker, ids: seq<Id>)
    ensures AckTokens(s, w, ids).turn == s.turn
  {
    hide Done, CountUp;
    if ids != [] {
      TokensTurn(s, w, ids[..|ids| - 1]);
    }
  }

  lemma AckBTurn(s: Sup, w: Worker, ids: seq<Id>)
    ensures AckB(s, w, ids).turn == s.turn
  {
    hide AckTokens;
    if w in s.index && s.messages > 0 {
      TokensTurn(s.(messages := s.messages - 1, inFlight := OneLess(s.inFlight, w)), w, ids);
    }
  }

  lemma LoseTurn(job: Job, s: Sup, a: Audit, w: Worker, grace: bool)
    requires SupInv(job, s, a)
    ensures Lost(s, w, grace).turn == s.turn
  {
    hide StrayInv, FailWorker, Replayed, LiveIn, DoneIn;
    FailWorkerIs(job, s, a, {}, w);
  }

  lemma {:induction false} FailEachTurn(job: Job, s: Sup, a: Audit, stray: set<Id>, ws: seq<Worker>)
    requires StrayInv(job, s, a, stray)
    ensures FailEach(s, ws).turn == s.turn
    decreases |ws|
  {
    hide StrayInv, FailWorker, Replayed, LiveIn, DoneIn;
    if ws != [] {
      FailWorkerIs(job, s, a, stray, ws[0]);
      FailKeeps(job, s, a, stray, ws[0]);
      FailEachTurn(job, FailWorker(s, ws[0]), AfterFailure(a, s, ws[0]), stray - Sent(s, ws[0]), ws[1..]);
    }
  }

  lemma SweepTurn(job: Job, s: Sup, a: Audit)
    requires SupInv(job, s, a)
    ensures Cleanup(s).turn == s.turn
  {
    hide StrayInv, FailEach, Marked;
    FailEachTurn(job, s, a, {}, Marked(s.roster, s.failed));
  }

  lemma StepSends(job: Job, s: Sup, a: Audit, e: Event)
    requires SupInv(job, s, a) && JobOk(job) && Enabled(job, s, e) && !job.tcp
    requires Step(job, s, e).roster == s.roster != [] && !Step(job, s, e).error
    ensures var u := Step(job, s, e);
            if e == Pass(true) && PassBatch(job, s) != []
            then u.turn == s.turn + 1 && Pick(job, s).worker == s.roster[s.turn % |s.roster|]
            else u.turn == s.turn
  {
    hide StrayInv, Dispatch, Pick, PassBatch, Search;
    PickIsNext(job, s);
    if e.Pass? {
      TurnMoves(job, s, a, e.sent);
      if !e.sent && PassBatch(job, s) != [] {
        FailedSendEnds(job, s, a);
      }
    } else {
      OtherTurn(job, s, a, e);
    }
  }

  // Without TCP a message that the socket does not take ends the run.
  lemma FailedSendEnds(job: Job, s: Sup, a: Audit)
    requires SupInv(job, s, a) && JobOk(job) && !job.tcp && !s.error && s.roster != [] && PassBatch(job, s) != []
    ensures Dispatch(job, s, false).error
  {
    hide StrayInv, Fill, Pick, Cleanup, SendFailed;
    DispatchCases(job, s, false);
  }

  // While the roster does not change the messages go round it from the current position on, whatever
  // answers come in between.
  lemma {:induction false} TakesTurns(job: Job, s: Sup, a: Audit, es: seq<Event>)
    requires SupInv(job, s, a) && JobOk(job) && !job.tcp && s.roster != [] && Legal(job, s, es) && Steady(job, s, es)
    ensures SentTo(job, s, es) == Cyclic(s.roster, s.turn, |SentTo(job, s, es)|)
    decreases |es|
  {
    hide StrayInv, Step, Enabled, Pick, PassBatch;
    if es != [] {
      var u := Step(job, s, es[0]);
      StepSends(job, s, a, es[0]);
      var b := StepKeeps(job, s, a, es[0]);
      TakesTurns(job, u, b, es[1..]);
      CyclicFront(s.roster, s.turn, |SentTo(job, u, es[1..])|);
    }
  }

  // ----- nobody is favoured

  function Share<T(==)>(ws: seq<T>, w: T): nat { multiset(ws)[w] }

  lemma ShareAppend<T>(a: seq<T>, b: seq<T>, w: T)
    ensures Share(a + b, w) == Share(a, w) + Share(b, w)
  {
  }

  // Fewer turns than workers: nobody comes twice.
  lemma AtMostOnce<T>(ws: seq<T>, turn: nat, n: nat, w: T)
    requires Distinct(ws) && ws != [] && n <= |ws|
    ensures Share(Cyclic(ws, turn, n), w) <= 1
  {
    var c := Cyclic(ws, turn, n);
    forall i, j | 0 <= i < j < |c| ensures c[i] != c[j] {
      ApartInCycle(turn + i, turn + j, |ws|);
    }
    DistinctShare(c, w);
  }

  lemma ApartInCycle(i: nat, j: nat, n: nat)
    requires n > 0 && i < j < i + n
    ensures i % n != j % n
  {
    var d := j / n - i / n;
    assert j - i == d * n + (j % n - i % n);
    MulGap(d, n);
  }

  lemma {:induction false} DistinctShare<T>(c: seq<T>, w: T)
    requires Distinct(c)
    ensures Share(c, w) == if w in c then 1 else 0
  {
    if c != [] {
      var n := |c| - 1;
      DistinctShare(c[..n], w);
      assert c == c[..n] + [c[n]];
    }
  }

  // One round: everybody comes exactly once.
  lemma OneRound<T>(ws: seq<T>, turn: nat, w: T)
    requires Distinct(ws) && w in ws
    ensures Share(Cyclic(ws, turn, |ws|), w) == 1
  {
    var c := Cyclic(ws, turn, |ws|);
    var i :| 0 <= i < |ws| && ws[i] == w;
    var k := SlotReached(turn, |ws|, i);
    assert c[k - turn] == w;
    AtMostOnce(ws, turn, |ws|, w);
    assert w in multiset(c);
  }

  lemma CyclicSplit<T>(ws: seq<T>, turn: nat, n: nat)
    requires ws != []
    ensures Cyclic(ws, turn, |ws| + n) == Cyclic(ws, turn, |ws|) + Cyclic(ws, turn + |ws|, n)
  {
    var (a, b) := (Cyclic(ws, turn, |ws| + n), Cyclic(ws, turn, |ws|) + Cyclic(ws, turn + |ws|, n));
    forall k | 0 <= k < |a| ensures a[k] == b[k] {
      assert turn + k == (turn + |ws|) + (k - |ws|);
    }
  }

  lemma {:induction false} FairShares<T>(ws: seq<T>, turn: nat, n: nat, v: T, w: T)
    requires Distinct(ws) && v in ws && w in ws
    ensures Share(Cyclic(ws, turn, n), v) <= Share(Cyclic(ws, turn, n), w) + 1
    decreases n
  {
    hide Cyclic, Share;
    if n <= |ws| {
      AtMostOnce(ws, turn, n, v);
    } else {
      var m: nat := n - |ws|;
      FairShares(ws, turn + |ws|, m, v, w);
      CyclicSplit(ws, turn, m);
      ShareAppend(Cyclic(ws, turn, |ws|), Cyclic(ws, turn + |ws|, m), v);
      ShareAppend(Cyclic(ws, turn, |ws|), Cyclic(ws, turn + |ws|, m), w);
      OneRound(ws, turn, v);
      OneRound(ws, turn, w);
    }
  }

  // Without TCP, and while nobody leaves, as many messages in a row as there are workers go one to each,
  // and after any number of messages no worker has had more than one more than another.
  lemma MessagesAreShared(job: Job, s: Sup, a: Audit, es: seq<Event>, v: Worker, w: Worker)
    requires SupInv(job, s, a) && JobOk(job) && !job.tcp && s.roster != [] && Legal(job, s, es) && Steady(job, s, es)
    requires v in s.index && w in s.index
    ensures var to := SentTo(job, s, es);
            && Share(to, v) <= Share(to, w) + 1
            && (|to| == |s.roster| ==> Share(to, v) == 1)
  {
    hide StrayInv, SentTo, Legal, Steady, Cyclic, Share;
    TakesTurns(job, s, a, es);
    RosterRegistered(job, s, a, {}, v);
    RosterRegistered(job, s, a, {}, w);
    DistinctRoster(job, s, a, {});
    FairShares(s.roster, s.turn, |SentTo(job, s, es)|, v, w);
    if |SentTo(job, s, es)| == |s.roster| {
      OneRound(s.roster, s.turn, v);
    }
  }
}

// A worker process and its two FIFO channels. While a batch is being worked on, the abort check may
// move the next frame from the socket to a queue of deferred frames; deferred frames are handled before
// anything newer.
module Workers {
  import opened Collections
  import opened TaskState
  import opened Odometer
  import opened Flight

  // What a worker currently holds: its current definition, the ids it was sent, and the definitions its
  // binning has. Without ids, Process uses the list of the definition itself.
  datatype Def = Def(name: string, ids: seq<int>, known: set<string>)

  // What the supervisor asks for. Nothing is announced for an empty name, and no ids unless there are some.
  datatype Order = Order(name: string, ids: Option<seq<int>>)

  function OrderIds(o: Order): seq<int> { if o.ids.Some? then o.ids.value else [] }

  predicate Matches(have: Def, o: Order) {
    o.name != "" ==> have.name == o.name && have.ids == OrderIds(o)
  }

  // TASK carries one task, TASKB more than one.
  datatype Msg = Init | SetDef(name: string) | SetIds(ids: seq<int>) | Work(batch: seq<(Id, Payload)>)

  // READY, the answer to INIT, ACK or ACKB, SHUTDOWN and ERR.
  datatype Reply = Hello | Inited | Answer(ids: seq<Id>) | Goodbye | Trouble

  // The batch at hand: all of it, and how many of its tasks are finished.
  datatype Bench = Bench(batch: seq<(Id, Payload)>, finished: nat)

  datatype Peer = Peer(
    inbox: seq<Msg>,
    deferred: seq<Msg>,
    outbox: seq<Reply>,
    have: Def,
    bench: Option<Bench>,
    log: map<Id, (Payload, Def)>,   // what Process was called on, and under which definition
    alive: bool)

  // A worker process starts with the current definition of its own binning and no ids.
  function NewPeer(have: Def): Peer { Peer([], [], [Hello], have, None, map[], true) }

  // Messages in the order in which they will be handled.
  function Queue(p: Peer): seq<Msg> { p.deferred + p.inbox }

  // SETDEF forgets the ids; a definition the binning does not have leaves the current one in place.
  function Next(have: Def, m: Msg): Def {
    match m
    case SetDef(name) => have.(name := if name in have.known then name else have.name, ids := [])
    case SetIds(ids) => have.(ids := ids)
    case _ => have
  }

  // ----- the steps of the worker loop

  function Dequeued(p: Peer): Peer
    requires Queue(p) != []
  {
    if p.deferred != [] then p.(deferred := p.deferred[1..]) else p.(inbox := p.inbox[1..])
  }

  function Processed(p: Peer, task: (Id, Payload)): Peer { p.(log := p.log[task.0 := (task.1, p.have)]) }

  function Died(p: Peer, last: seq<Reply>): Peer { p.(outbox := p.outbox + last, alive := false) }

  // Takes the next message. A single task is processed at once; throws says whether Process throws.
  function Take(p: Peer, throws: bool): Peer
    requires p.alive && p.bench.None? && Queue(p) != []
  {
    var q := Dequeued(p);
    match Queue(p)[0]
    case Init => q.(outbox := q.outbox + [Inited])
    case SetDef(_) => q.(have := Next(q.have, Queue(p)[0]))
    case SetIds(_) => q.(have := Next(q.have, Queue(p)[0]))
    case Work(batch) =>
      if batch == [] then Died(q, [])
      else if |batch| > 1 then q.(bench := Some(Bench(batch, 0)))
      else if throws then Died(q, [Trouble])
      else Processed(q, batch[0]).(outbox := q.outbox + [Answer([batch[0].0])])
  }

  // The abort check between two tasks of a batch: a frame that is not STOP is kept for later.
  function Defer(p: Peer): Peer
    requires p.inbox != []
  {
    p.(inbox := p.inbox[1..], deferred := p.deferred + [p.inbox[0]])
  }

  function NextTask(p: Peer, throws: bool): Peer
    requires p.alive && p.bench.Some? && p.bench.value.finished < |p.bench.value.batch|
  {
    var b := p.bench.value;
    if throws then Died(p, [Trouble])
    else Processed(p, b.batch[b.finished]).(bench := Some(b.(finished := b.finished + 1)))
  }

  function EndBatch(p: Peer): Peer
    requires p.alive && p.bench.Some? && p.bench.value.finished == |p.bench.value.batch|
  {
    p.(bench := None, outbox := p.outbox + [Answer(Ids(p.bench.value.batch))])
  }

  // A signal: SHUTDOWN goes out first, then the answer for the finished part of the batch at hand.
  function Interrupted(p: Peer): Peer
    requires p.alive && (p.bench.Some? ==> p.bench.value.finished <= |p.bench.value.batch|)
  {
    if p.bench.None? || p.bench.value.finished == 0 then Died(p, [Goodbye])
    else Died(p, [Goodbye, Answer(Ids(p.bench.value.batch[..p.bench.value.finished]))])
  }

  datatype Act = DoTake(throws: bool) | DoDefer | DoNext(throws: bool) | DoEnd | DoInterrupt | DoCrash

  predicate Able(p: Peer, act: Act) {
    && p.alive
    && match act
       case DoTake(_) => p.bench.None? && Queue(p) != []
       case DoDefer => p.bench.Some? && p.inbox != []
       case DoNext(_) => p.bench.Some? && p.bench.value.finished < |p.bench.value.batch|
       case DoEnd => p.bench.Some? && p.bench.value.finished == |p.bench.value.batch|
       case DoInterrupt => p.bench.Some? ==> p.bench.value.finished <= |p.bench.value.batch|
       case DoCrash => true
  }

  function PeerStep(p: Peer, act: Act): Peer
    requires Able(p, act)
  {
    match act
    case DoTake(throws) => Take(p, throws)
    case DoDefer => Defer(p)
    case DoNext(throws) => NextTask(p, throws)
    case DoEnd => EndBatch(p)
    case DoInterrupt => Interrupted(p)
    case DoCrash => Died(p, [])
  }

  // ----- what is under way between a worker and the supervisor

  // The batches of the messages not yet taken, and those of the answers before any last word.
  function Loads(ms: seq<Msg>): Batches {
    if ms == [] then [] else (if ms[0].Work? then [Ids(ms[0].batch)] else []) + Loads(ms[1..])
  }

  function Answers(rs: seq<Reply>): Batches {
    if rs == [] || rs[0].Goodbye? || rs[0].Trouble? then []
    else (if rs[0].Answer? then [rs[0].ids] else []) + Answers(rs[1..])
  }

  predicate SaidGoodbye(rs: seq<Reply>) { exists k :: 0 <= k < |rs| && (rs[k].Goodbye? || rs[k].Trouble?) }

  function BenchLoad(p: Peer): Batches { if p.bench.Some? then [Ids(p.bench.value.batch)] else [] }

  // Answers on their way, then the batch at hand, then the messages not yet taken.
  function Pipeline(p: Peer): Batches { Answers(p.outbox) + BenchLoad(p) + Loads(Queue(p)) }

  // A living worker has every unanswered message somewhere, in the order in which they were sent; a dead
  // one has at most answers left on their way.
  ghost predicate InStep(p: Peer, f: Batches) {
    if p.alive then !SaidGoodbye(p.outbox) && Pipeline(p) == f else Answers(p.outbox) <= f
  }

  // ----- tasks carry the point of their id

  ghost predicate OnPoint(lo: Coords, hi: Coords, batch: seq<(Id, Payload)>)
    requires IsBox(lo, hi)
  {
    batch != [] && forall k :: 0 <= k < |batch| ==> batch[k].1 == Point(lo, hi, batch[k].0)
  }

  ghost predicate QueueOnPoint(lo: Coords, hi: Coords, p: Peer)
    requires IsBox(lo, hi)
  {
    p.alive ==>
      && (forall m :: m in Queue(p) && m.Work? ==> OnPoint(lo, hi, m.batch))
      && (p.bench.Some? ==> OnPoint(lo, hi, p.bench.value.batch) && p.bench.value.finished <= |p.bench.value.batch|)
  }

  // ----- definitions

  // The definition in force after handling the messages.
  function After(have: Def, ms: seq<Msg>): Def
    decreases |ms|
  {
    if ms == [] then have else After(Next(have, ms[0]), ms[1..])
  }

  // Every task among the messages will be handled under the order, or none.
  predicate Under(have: Def, ms: seq<Msg>, o: Order, synced: bool)
    decreases |ms|
  {
    ms == [] || ((ms[0].Work? ==> (Matches(have, o) <==> synced)) && Under(Next(have, ms[0]), ms[1..], o, synced))
  }

  // The worker is under the order once it has handled everything posted to it.
  predicate Knows(p: Peer, o: Order) { Matches(After(p.have, Queue(p)), o) }

  // All its tasks run under the order if it knows it, and none otherwise.
  predicate InForce(p: Peer, o: Order, synced: bool) {
    && (Knows(p, o) <==> synced)
    && (p.alive ==> Under(p.have, Queue(p), o, synced) && (p.bench.Some? ==> (Matches(p.have, o) <==> synced)))
  }

  // ----- what was really processed

  // The worker has run Process on the point of this task, and under the order now in force exactly if it
  // knows that order.
  ghost predicate Worked(lo: Coords, hi: Coords, o: Order, synced: bool, log: map<Id, (Payload, Def)>, id: Id)
    requires IsBox(lo, hi)
  {
    id in log && log[id].0 == Point(lo, hi, id) && (Matches(log[id].1, o) <==> synced)
  }

  ghost predicate AllWorked(lo: Coords, hi: Coords, o: Order, synced: bool, log: map<Id, (Payload, Def)>, ids: set<Id>)
    requires IsBox(lo, hi)
  {
    forall id :: id in ids ==> Worked(lo, hi, o, synced, log, id)
  }

  function Underway(p: Peer): set<Id> {
    ToSet(Flat(Answers(p.outbox)))
    + (if p.alive && p.bench.Some? && p.bench.value.finished <= |p.bench.value.batch|
       then ToSet(Ids(p.bench.value.batch[..p.bench.value.finished])) else {})
  }

  // Everything that holds of a registered worker with batches f unanswered and the tasks done finished.
  ghost predicate Member(lo: Coords, hi: Coords, o: Order, synced: bool, p: Peer, f: Batches, done: set<Id>)
    requires IsBox(lo, hi)
  {
    && InStep(p, f) && QueueOnPoint(lo, hi, p)
    && (forall m :: m in Queue(p) ==> !m.Init?)
    && (forall r :: r in p.outbox ==> !r.Hello? && !r.Inited?)
    && InForce(p, o, synced)
    && AllWorked(lo, hi, o, synced, p.log, done + Underway(p))
  }

  // ----- each step keeps a member a member

  lemma {:induction false} AnswersSnoc(rs: seq<Reply>, r: Reply)
    requires !SaidGoodbye(rs)
    ensures Answers(rs + [r]) == Answers(rs) + (if r.Answer? then [r.ids] else [])
  {
    if rs == [] {
      assert ([r])[1..] == [];
    } else {
      assert !(rs[0].Goodbye? || rs[0].Trouble?);
      assert (rs + [r])[1..] == rs[1..] + [r];
      assert forall k :: 0 <= k < |rs[1..]| ==> rs[1..][k] == rs[k + 1];
      AnswersSnoc(rs[1..], r);
    }
  }

  lemma {:induction false} AnswersCut(rs: seq<Reply>, more: seq<Reply>)
    requires more == [] || more[0].Goodbye? || more[0].Trouble?
    ensures Answers(rs + more) == Answers(rs)
  {
    if rs == [] {
      assert rs + more == more;
    } else {
      assert (rs + more)[1..] == rs[1..] + more;
      AnswersCut(rs[1..], more);
    }
  }

  lemma DeferKeepsQueue(p: Peer)
    requires p.inbox != []
    ensures Queue(Defer(p)) == Queue(p)
  {
  }

  lemma FinishedMore(batch: seq<(Id, Payload)>, n: nat)
    requires n < |batch|
    ensures ToSet(Ids(batch[..n + 1])) == ToSet(Ids(batch[..n])) + {batch[n].0}
    ensures batch[..|batch|] == batch
  {
    assert batch[..n + 1] == batch[..n] + [batch[n]];
    IdsSnoc(batch[..n], batch[n]);
  }

  lemma {:induction false} IdsSnoc(batch: seq<(Id, Payload)>, e: (Id, Payload))
    ensures Ids(batch + [e]) == Ids(batch) + [e.0]
  {
    if batch != [] {
      assert (batch + [e])[1..] == batch[1..] + [e];
      IdsSnoc(batch[1..], e);
    }
  }

  lemma WorkedMore(lo: Coords, hi: Coords, o: Order, synced: bool, p: Peer, task: (Id, Payload), ids: set<Id>)
    requires IsBox(lo, hi) && AllWorked(lo, hi, o, synced, p.log, ids)
    requires task.1 == Point(lo, hi, task.0) && (Matches(p.have, o) <==> synced)
    ensures AllWorked(lo, hi, o, synced, Processed(p, task).log, ids + {task.0})
  {
    hide Point, Matches;
  }

  lemma FewerWorked(lo: Coords, hi: Coords, o: Order, synced: bool, log: map<Id, (Payload, Def)>, ids: set<Id>, fewer: set<Id>)
    requires IsBox(lo, hi) && AllWorked(lo, hi, o, synced, log, ids) && fewer <= ids
    ensures AllWorked(lo, hi, o, synced, log, fewer)
  {
    hide Worked;
  }

  // A member's last word, or none: it stays behind with the answers already on their way.
  lemma DiedStep(p: Peer, f: Batches, last: seq<Reply>)
    requires p.alive && InStep(p, f) && (last == [] || last[0].Goodbye? || last[0].Trouble?)
    ensures InStep(Died(p, last), f) && Answers(Died(p, last).outbox) == Answers(p.outbox)
  {
    hide Loads, SaidGoodbye;
    AnswersCut(p.outbox, last);
  }

  lemma DequeuedFields(p: Peer)
    requires Queue(p) != []
    ensures var q := Dequeued(p);
            && Queue(q) == Queue(p)[1..] && q.outbox == p.outbox && q.have == p.have && q.bench == p.bench
            && q.log == p.log && q.alive == p.alive
    ensures forall m :: m in Queue(Dequeued(p)) ==> m in Queue(p)
    ensures Queue(p)[0] in Queue(p)
  {
  }

  lemma Settings(lo: Coords, hi: Coords, o: Order, synced: bool, p: Peer, f: Batches, done: set<Id>)
    requires IsBox(lo, hi) && Member(lo, hi, o, synced, p, f, done)
    requires p.alive && p.bench.None? && Queue(p) != [] && (Queue(p)[0].SetDef? || Queue(p)[0].SetIds?)
    ensures Member(lo, hi, o, synced, Take(p, false), f, done) && Take(p, true) == Take(p, false)
  {
    hide OnPoint, Matches, AllWorked, Answers, SaidGoodbye, Flat;
    DequeuedFields(p);
  }

  // Taking a message with work: the batch leaves the queue and is either answered or at hand.
  lemma TakenLoads(p: Peer, f: Batches)
    requires Queue(p) != [] && Queue(p)[0].Work? && p.bench.None? && p.alive && InStep(p, f)
    ensures Answers(p.outbox) + [Ids(Queue(p)[0].batch)] + Loads(Queue(p)[1..]) == f
  {
    hide Answers, SaidGoodbye, Ids;
    assert Loads(Queue(p)) == [Ids(Queue(p)[0].batch)] + Loads(Queue(p)[1..]);
    assert Answers(p.outbox) + [] == Answers(p.outbox);
  }

  lemma UnderWork(have: Def, ms: seq<Msg>, o: Order, synced: bool)
    requires ms != [] && ms[0].Work? && Under(have, ms, o, synced)
    ensures (Matches(have, o) <==> synced) && Under(have, ms[1..], o, synced)
    ensures After(have, ms) == After(have, ms[1..])
  {
  }

  // What stays true of a member when the first message, a message with work, has been taken.
  ghost predicate Relieved(lo: Coords, hi: Coords, o: Order, synced: bool, p: Peer, q: Peer, f: Batches, done: set<Id>)
    requires IsBox(lo, hi) && Queue(p) != [] && Queue(p)[0].Work?
  {
    && Queue(q) == Queue(p)[1..] && q.outbox == p.outbox && q.have == p.have && q.bench.None? && q.log == p.log && q.alive
    && QueueOnPoint(lo, hi, q) && OnPoint(lo, hi, Queue(p)[0].batch)
    && (forall m :: m in Queue(q) ==> !m.Init?) && (forall r :: r in q.outbox ==> !r.Hello? && !r.Inited?)
    && !SaidGoodbye(q.outbox)
    && Answers(q.outbox) + [Ids(Queue(p)[0].batch)] + Loads(Queue(q)) == f
    && (Matches(q.have, o) <==> synced) && InForce(q, o, synced)
    && AllWorked(lo, hi, o, synced, q.log, done + ToSet(Flat(Answers(q.outbox))))
  }

  lemma Relieves(lo: Coords, hi: Coords, o: Order, synced: bool, p: Peer, f: Batches, done: set<Id>)
    requires IsBox(lo, hi) && Member(lo, hi, o, synced, p, f, done)
    requires p.alive && p.bench.None? && Queue(p) != [] && Queue(p)[0].Work?
    ensures Relieved(lo, hi, o, synced, p, Dequeued(p), f, done)
  {
    hide OnPoint, Matches, AllWorked, Answers, SaidGoodbye, Flat, Ids, Under, After, Loads;
    DequeuedFields(p);
    TakenLoads(p, f);
    UnderWork(p.have, Queue(p), o, synced);
    assert done + Underway(p) == done + ToSet(Flat(Answers(p.outbox)));
  }

  lemma FlatMore(a: Batches, ids: seq<Id>)
    ensures ToSet(Flat(a + [ids])) == ToSet(Flat(a)) + ToSet(ids)
  {
    FlatSnoc(a, ids);
  }

  lemma TakenAndThrown(lo: Coords, hi: Coords, o: Order, synced: bool, p: Peer, q: Peer, f: Batches, done: set<Id>)
    requires IsBox(lo, hi) && Queue(p) != [] && Queue(p)[0].Work? && Relieved(lo, hi, o, synced, p, q, f, done)
    ensures Member(lo, hi, o, synced, Died(q, [Trouble]), f, done)
  {
    hide OnPoint, Matches, AllWorked, Answers, SaidGoodbye, Flat, Ids, Under, After, Loads;
    AnswersCut(q.outbox, [Trouble]);
    assert done + Underway(Died(q, [Trouble])) == done + ToSet(Flat(Answers(q.outbox)));
  }

  lemma TakenAndAnswered(lo: Coords, hi: Coords, o: Order, synced: bool, p: Peer, q: Peer, f: Batches, done: set<Id>)
    requires IsBox(lo, hi) && Queue(p) != [] && Queue(p)[0].Work? && Relieved(lo, hi, o, synced, p, q, f, done)
    requires |Queue(p)[0].batch| == 1
    ensures var task := Queue(p)[0].batch[0];
            Member(lo, hi, o, synced, Processed(q, task).(outbox := q.outbox + [Answer([task.0])]), f, done)
  {
    hide Matches, AllWorked, Answers, SaidGoodbye, Flat, Under, After, Loads, Point;
    var task := Queue(p)[0].batch[0];
    var u := Processed(q, task).(outbox := q.outbox + [Answer([task.0])]);
    assert Ids(Queue(p)[0].batch) == [task.0];
    AnswersSnoc(q.outbox, Answer([task.0]));
    GoodbyeSnoc(q.outbox, Answer([task.0]));
    FlatMore(Answers(q.outbox), [task.0]);
    WorkedMore(lo, hi, o, synced, q, task, done + ToSet(Flat(Answers(q.outbox))));
    assert done + Underway(u) == done + ToSet(Flat(Answers(q.outbox))) + {task.0};
    assert Answers(u.outbox) + [] == Answers(u.outbox);
  }

  lemma GoodbyeSnoc(rs: seq<Reply>, r: Reply)
    requires !SaidGoodbye(rs) && !r.Goodbye? && !r.Trouble?
    ensures !SaidGoodbye(rs + [r])
  {
  }

  lemma TakenToBench(lo: Coords, hi: Coords, o: Order, synced: bool, p: Peer, q: Peer, f: Batches, done: set<Id>)
    requires IsBox(lo, hi) && Queue(p) != [] && Queue(p)[0].Work? && Relieved(lo, hi, o, synced, p, q, f, done)
    ensures Member(lo, hi, o, synced, q.(bench := Some(Bench(Queue(p)[0].batch, 0))), f, done)
  {
    hide OnPoint, Matches, AllWorked, Answers, SaidGoodbye, Flat, Under, After, Loads;
    var u := q.(bench := Some(Bench(Queue(p)[0].batch, 0)));
    assert Ids(Queue(p)[0].batch[..0]) == [];
    assert done + Underway(u) == done + ToSet(Flat(Answers(q.outbox)));
    assert Queue(u) == Queue(q);
  }

  lemma TakeMember(lo: Coords, hi: Coords, o: Order, synced: bool, p: Peer, f: Batches, done: set<Id>, throws: bool)
    requires IsBox(lo, hi) && Member(lo, hi, o, synced, p, f, done) && Able(p, DoTake(throws))
    ensures Member(lo, hi, o, synced, Take(p, throws), f, done)
  {
    hide Member, Relieved, Processed, Died, Ids;
    QueueHead(lo, hi, o, synced, p, f, done);
    if Queue(p)[0].Work? {
      Relieves(lo, hi, o, synced, p, f, done);
      var q := Dequeued(p);
      if |Queue(p)[0].batch| == 1 {
        TakenAndThrown(lo, hi, o, synced, p, q, f, done);
        TakenAndAnswered(lo, hi, o, synced, p, q, f, done);
      } else {
        TakenToBench(lo, hi, o, synced, p, q, f, done);
      }
    } else {
      Settings(lo, hi, o, synced, p, f, done);
    }
  }

  lemma QueueHead(lo: Coords, hi: Coords, o: Order, synced: bool, p: Peer, f: Batches, done: set<Id>)
    requires IsBox(lo, hi) && Member(lo, hi, o, synced, p, f, done) && Queue(p) != [] && p.alive
    ensures !Queue(p)[0].Init? && (Queue(p)[0].Work? ==> Queue(p)[0].batch != [])
  {
    hide Matches, AllWorked, InStep, InForce, Point;
    assert Queue(p)[0] in Queue(p);
  }

  lemma DeferMember(lo: Coords, hi: Coords, o: Order, synced: bool, p: Peer, f: Batches, done: set<Id>)
    requires IsBox(lo, hi) && Member(lo, hi, o, synced, p, f, done) && Able(p, DoDefer)
    ensures Member(lo, hi, o, synced, Defer(p), f, done)
  {
    hide OnPoint, Matches, AllWorked, Answers, SaidGoodbye, Flat, Under, After, Loads, Queue, Ids;
    DeferKeepsQueue(p);
  }

  lemma DiedMember(lo: Coords, hi: Coords, o: Order, synced: bool, p: Peer, f: Batches, done: set<Id>, last: seq<Reply>)
    requires IsBox(lo, hi) && Member(lo, hi, o, synced, p, f, done) && p.alive
    requires last == [] || last[0].Goodbye? || last[0].Trouble?
    requires forall r :: r in last ==> !r.Hello? && !r.Inited?
    ensures Member(lo, hi, o, synced, Died(p, last), f, done)
  {
    hide OnPoint, Matches, AllWorked, Answers, SaidGoodbye, Flat, Under, After, Loads, Ids, InStep;
    DiedStep(p, f, last);
    assert Queue(Died(p, last)) == Queue(p);
    assert Underway(Died(p, last)) <= Underway(p);
    FewerWorked(lo, hi, o, synced, p.log, done + Underway(p), done + Underway(Died(p, last)));
  }

  lemma ProcessedMember(lo: Coords, hi: Coords, o: Order, synced: bool, p: Peer, f: Batches, done: set<Id>)
    requires IsBox(lo, hi) && Member(lo, hi, o, synced, p, f, done) && Able(p, DoNext(false))
    ensures Member(lo, hi, o, synced, NextTask(p, false), f, done)
  {
    hide Matches, AllWorked, Answers, SaidGoodbye, Flat, Under, After, Loads, Ids, Point;
    var b := p.bench.value;
    var u := NextTask(p, false);
    FinishedMore(b.batch, b.finished);
    WorkedMore(lo, hi, o, synced, p, b.batch[b.finished], done + Underway(p));
    assert done + Underway(u) == done + Underway(p) + {b.batch[b.finished].0};
    assert Queue(u) == Queue(p);
  }

  lemma EndMember(lo: Coords, hi: Coords, o: Order, synced: bool, p: Peer, f: Batches, done: set<Id>)
    requires IsBox(lo, hi) && Member(lo, hi, o, synced, p, f, done) && Able(p, DoEnd)
    ensures Member(lo, hi, o, synced, EndBatch(p), f, done)
  {
    hide OnPoint, Matches, AllWorked, Answers, SaidGoodbye, Flat, Under, After, Loads, Ids;
    var (batch, u) := (p.bench.value.batch, EndBatch(p));
    AnswersSnoc(p.outbox, Answer(Ids(batch)));
    GoodbyeSnoc(p.outbox, Answer(Ids(batch)));
    FlatMore(Answers(p.outbox), Ids(batch));
    assert batch[..|batch|] == batch;
    assert Underway(u) == Underway(p);
    assert Queue(u) == Queue(p);
    assert Answers(u.outbox) + [] == Answers(u.outbox);
  }

  // Whatever a registered worker does, takes, defers, finishes, throws or dies, it stays a member: the
  // messages it has not answered are the ones the supervisor waits for, and what it has done was
  // processed on the right point under the definition in force.
  lemma PeerKeeps(lo: Coords, hi: Coords, o: Order, synced: bool, p: Peer, f: Batches, done: set<Id>, act: Act)
    requires IsBox(lo, hi) && Member(lo, hi, o, synced, p, f, done) && Able(p, act)
    ensures Member(lo, hi, o, synced, PeerStep(p, act), f, done)
  {
    hide Member, Take, EndBatch, Defer, Processed, Died;
    match act
    case DoTake(throws) => TakeMember(lo, hi, o, synced, p, f, done, throws);
    case DoDefer => DeferMember(lo, hi, o, synced, p, f, done);
    case DoNext(throws) =>
      if throws {
        DiedMember(lo, hi, o, synced, p, f, done, [Trouble]);
      } else {
        ProcessedMember(lo, hi, o, synced, p, f, done);
      }
    case DoEnd => EndMember(lo, hi, o, synced, p, f, done);
    case DoInterrupt =>
      if p.bench.None? || p.bench.value.finished == 0 {
        DiedMember(lo, hi, o, synced, p, f, done, [Goodbye]);
      } else {
        DiedMember(lo, hi, o, synced, p, f, done, [Goodbye, Answer(Ids(p.bench.value.batch[..p.bench.value.finished]))]);
      }
    case DoCrash => DiedMember(lo, hi, o, synced, p, f, done, []);
  }

  // ----- the supervisor's end of the channels

  function Post(p: Peer, ms: seq<Msg>): Peer { p.(inbox := p.inbox + ms) }

  function Heard(p: Peer): Peer
    requires p.outbox != []
  {
    p.(outbox := p.outbox[1..])
  }

  lemma {:induction false} LoadsAppend(xs: seq<Msg>, ys: seq<Msg>)
    ensures Loads(xs + ys) == Loads(xs) + Loads(ys)
  {
    if xs == [] {
      assert xs + ys == ys;
    } else {
      assert (xs + ys)[1..] == xs[1..] + ys;
      LoadsAppend(xs[1..], ys);
    }
  }

  lemma {:induction false} UnderAppend(have: Def, xs: seq<Msg>, ys: seq<Msg>, o: Order, synced: bool)
    ensures Under(have, xs + ys, o, synced) <==> Under(have, xs, o, synced) && Under(After(have, xs), ys, o, synced)
    ensures After(have, xs + ys) == After(After(have, xs), ys)
    decreases |xs|
  {
    hide Matches;
    if xs == [] {
      assert xs + ys == ys;
    } else {
      assert (xs + ys)[1..] == xs[1..] + ys && (xs + ys)[0] == xs[0];
      UnderAppend(Next(have, xs[0]), xs[1..], ys, o, synced);
    }
  }

  lemma PostQueue(p: Peer, ms: seq<Msg>)
    ensures Queue(Post(p, ms)) == Queue(p) + ms
  {
  }

  // A message with work is posted: one more batch is in flight to the member.
  lemma PostWork(lo: Coords, hi: Coords, o: Order, synced: bool, p: Peer, f: Batches, done: set<Id>, batch: seq<(Id, Payload)>)
    requires IsBox(lo, hi) && Member(lo, hi, o, synced, p, f, done) && OnPoint(lo, hi, batch)
    ensures Member(lo, hi, o, synced, Post(p, [Work(batch)]), f + [Ids(batch)], done)
  {
    hide OnPoint, InForce, AllWorked, Answers, SaidGoodbye, Flat, Ids;
    var u := Post(p, [Work(batch)]);
    PostQueue(p, [Work(batch)]);
    LoadsAppend(Queue(p), [Work(batch)]);
    assert Loads([Work(batch)]) == [Ids(batch)];
    PostInForce(p, batch, o, synced);
    assert Underway(u) == Underway(p);
  }

  lemma PostInForce(p: Peer, batch: seq<(Id, Payload)>, o: Order, synced: bool)
    requires InForce(p, o, synced)
    ensures InForce(Post(p, [Work(batch)]), o, synced)
  {
    hide Matches, Under, After;
    PostQueue(p, [Work(batch)]);
    UnderAppend(p.have, Queue(p), [Work(batch)], o, synced);
    UnderOneWork(After(p.have, Queue(p)), batch, o, synced);
  }

  lemma UnderOneWork(have: Def, batch: seq<(Id, Payload)>, o: Order, synced: bool)
    ensures Under(have, [Work(batch)], o, synced) <==> (Matches(have, o) <==> synced)
    ensures After(have, [Work(batch)]) == have
  {
    assert [Work(batch)][1..] == [];
  }

  // The oldest answer of a member answers its oldest message.
  lemma HeardAnswer(lo: Coords, hi: Coords, o: Order, synced: bool, p: Peer, f: Batches, done: set<Id>)
    requires IsBox(lo, hi) && Member(lo, hi, o, synced, p, f, done) && p.outbox != [] && p.outbox[0].Answer?
    ensures f != [] && f[0] == p.outbox[0].ids
    ensures Member(lo, hi, o, synced, Heard(p), f[1..], done + ToSet(f[0]))
  {
    hide OnPoint, InForce, AllWorked, Ids, Loads, Flat, SaidGoodbye;
    var u := Heard(p);
    assert Answers(p.outbox) == [p.outbox[0].ids] + Answers(u.outbox);
    assert Queue(u) == Queue(p);
    HeardUnderway(p);
    HeardInForce(p, o, synced);
    FewerWorked(lo, hi, o, synced, p.log, done + Underway(p), done + ToSet(f[0]) + Underway(u));
    if p.alive {
      HeardGoodbye(p);
    }
  }

  lemma HeardUnderway(p: Peer)
    requires p.outbox != [] && p.outbox[0].Answer?
    ensures Underway(p) == ToSet(p.outbox[0].ids) + Underway(Heard(p))
  {
    hide Ids;
    var u := Heard(p);
    assert Answers(p.outbox) == [p.outbox[0].ids] + Answers(u.outbox);
    assert Answers(p.outbox)[1..] == Answers(u.outbox);
    assert Flat(Answers(p.outbox)) == p.outbox[0].ids + Flat(Answers(u.outbox));
  }

  lemma HeardInForce(p: Peer, o: Order, synced: bool)
    requires p.outbox != [] && InForce(p, o, synced)
    ensures InForce(Heard(p), o, synced)
  {
    hide Matches, Under, After;
    assert Queue(Heard(p)) == Queue(p);
  }

  lemma HeardGoodbye(p: Peer)
    requires p.outbox != [] && !SaidGoodbye(p.outbox)
    ensures !SaidGoodbye(Heard(p).outbox)
  {
    assert forall k :: 0 <= k < |p.outbox[1..]| ==> p.outbox[1..][k] == p.outbox[k + 1];
  }

  // A member that has answered everything has nothing on its bench and no work in its queue.
  lemma {:induction false} NoLoads(ms: seq<Msg>)
    ensures Loads(ms) == [] <==> forall m :: m in ms ==> !m.Work?
  {
    if ms != [] {
      NoLoads(ms[1..]);
      assert forall m :: m in ms <==> m == ms[0] || m in ms[1..];
    }
  }

  lemma {:induction false} NoWorkUnder(have: Def, ms: seq<Msg>, o: Order, synced: bool)
    requires forall m :: m in ms ==> !m.Work?
    ensures Under(have, ms, o, synced)
    decreases |ms|
  {
    if ms != [] {
      assert ms[0] in ms && forall m :: m in ms[1..] ==> m in ms;
      NoWorkUnder(Next(have, ms[0]), ms[1..], o, synced);
    }
  }

  // The messages that announce a definition, as far as they go out. The catch-up of a late worker sends
  // the ids even if SETDEF did not go out.
  function Announce(o: Order, defSent: bool, idsSent: bool): seq<Msg> {
    if o.name == "" then []
    else (if defSent then [SetDef(o.name)] else []) + (if o.ids.Some? && idsSent then [SetIds(o.ids.value)] else [])
  }

  predicate Announced(o: Order, defSent: bool, idsSent: bool) {
    o.name == "" || (defSent && (o.ids.None? || idsSent))
  }

  lemma AnnounceIsTalk(o: Order, defSent: bool, idsSent: bool)
    ensures forall m :: m in Announce(o, defSent, idsSent) ==> m.SetDef? || m.SetIds?
    ensures Loads(Announce(o, defSent, idsSent)) == []
  {
    NoLoads(Announce(o, defSent, idsSent));
  }

  // What a worker holds after the announcement, message by message.
  lemma AfterAnnounce(have: Def, o: Order, defSent: bool, idsSent: bool)
    requires o.name != ""
    ensures var d := if defSent then Next(have, SetDef(o.name)) else have;
            After(have, Announce(o, defSent, idsSent)) == if o.ids.Some? && idsSent then d.(ids := o.ids.value) else d
  {
    var first := if defSent then [SetDef(o.name)] else [];
    var rest := if o.ids.Some? && idsSent then [SetIds(o.ids.value)] else [];
    assert Announce(o, defSent, idsSent) == first + rest;
    UnderAppend(have, first, rest, o, true);
    if defSent {
      assert first[1..] == [];
    }
    if rest != [] {
      assert rest[1..] == [];
    }
  }

  // After the announcement a worker is under the order exactly if it has the definition, or was told of
  // one it knows, and holds the right ids: those sent, those it had, or none because SETDEF took them.
  lemma AnnounceSets(have: Def, o: Order, defSent: bool, idsSent: bool)
    ensures Matches(After(have, Announce(o, defSent, idsSent)), o) <==>
              (o.name == ""
               || ((have.name == o.name || (defSent && o.name in have.known))
                   && ((o.ids.Some? && idsSent) || (if defSent then [] else have.ids) == OrderIds(o))))
    ensures Announced(o, defSent, idsSent) ==>
              (Matches(After(have, Announce(o, defSent, idsSent)), o) <==> o.name in have.known + {"", have.name})
  {
    if o.name != "" {
      AfterAnnounce(have, o, defSent, idsSent);
    }
  }

  // A new definition reaches a member that owes nothing: its record starts afresh.
  lemma NewOrder(lo: Coords, hi: Coords, o: Order, synced: bool, p: Peer, done: set<Id>,
                 lo': Coords, hi': Coords, o': Order, defSent: bool, idsSent: bool)
    requires IsBox(lo, hi) && Member(lo, hi, o, synced, p, [], done) && IsBox(lo', hi')
    ensures var u := Post(p, Announce(o', defSent, idsSent)).(log := map[]);
            Member(lo', hi', o', Knows(u, o'), u, [], {})
  {
    hide OnPoint, Matches, AllWorked, Answers, SaidGoodbye, Flat, Ids, Under, After, Loads, Announce, Announced;
    var ms := Announce(o', defSent, idsSent);
    var u := Post(p, ms).(log := map[]);
    var s := Knows(u, o');
    PostQueue(p, ms);
    LoadsAppend(Queue(p), ms);
    AnnounceIsTalk(o', defSent, idsSent);
    if p.alive {
      NoLoads(Queue(u));
      NoWorkUnder(p.have, Queue(u), o', s);
    }
    NothingUnderway(u);
    NothingWorked(lo', hi', o', s, u.log);
    assert Queue(u) == Queue(p) + ms;
  }

  lemma NothingUnderway(p: Peer)
    requires Answers(p.outbox) == [] && (p.alive ==> p.bench.None?)
    ensures Underway(p) == {}
  {
    hide Answers;
  }

  lemma NothingWorked(lo: Coords, hi: Coords, o: Order, synced: bool, log: map<Id, (Payload, Def)>)
    requires IsBox(lo, hi)
    ensures AllWorked(lo, hi, o, synced, log, {} + {})
  {
  }

  // ----- workers that are not registered

  function Greetings(rs: seq<Reply>): nat {
    if rs == [] then 0 else (if rs[0].Hello? || rs[0].Inited? then 1 else 0) + Greetings(rs[1..])
  }

  // A worker that has not joined: at most one handshake frame is under way, and no work.
  ghost predicate Shaking(p: Peer) {
    && p.deferred == [] && p.bench.None? && (p.inbox == [] || p.inbox == [Init])
    && |p.inbox| + Greetings(p.outbox) <= 1
    && (forall r :: r in p.outbox ==> !r.Answer?)
    && (p.alive ==> !SaidGoodbye(p.outbox))
  }

  ghost predicate Outsider(p: Peer) { Hello in p.outbox ==> Shaking(p) && p.inbox == [] }

  lemma {:induction false} GreetingsSnoc(rs: seq<Reply>, more: seq<Reply>)
    ensures Greetings(rs + more) == Greetings(rs) + Greetings(more)
  {
    if rs == [] {
      assert rs + more == more;
    } else {
      assert (rs + more)[1..] == rs[1..] + more;
      GreetingsSnoc(rs[1..], more);
    }
  }

  lemma {:induction false} NoGreetings(rs: seq<Reply>)
    ensures Greetings(rs) == 0 <==> forall r :: r in rs ==> !r.Hello? && !r.Inited?
  {
    if rs != [] {
      NoGreetings(rs[1..]);
      assert forall r :: r in rs <==> r == rs[0] || r in rs[1..];
    }
  }

  lemma ShakingSteps(p: Peer, act: Act)
    requires Shaking(p) && Able(p, act)
    ensures Shaking(PeerStep(p, act)) && (p.inbox == [] ==> PeerStep(p, act).inbox == [])
    ensures Hello in PeerStep(p, act).outbox ==> Hello in p.outbox
  {
    hide SaidGoodbye, Greetings;
    match act
    case DoTake(throws) =>
      assert Queue(p) == p.inbox == [Init];
      GreetingsSnoc(p.outbox, [Inited]);
      OneGreeting();
      GoodbyeSnoc(p.outbox, Inited);
    case DoInterrupt =>
      GreetingsSnoc(p.outbox, [Goodbye]);
      OneGreeting();
    case DoCrash => assert p.outbox + [] == p.outbox;
    case _ =>
  }

  lemma OneGreeting()
    ensures Greetings([Inited]) == 1 && Greetings([Goodbye]) == 0
  {
    assert [Inited][1..] == [] && [Goodbye][1..] == [];
  }

  lemma TalkHasNoHello(p: Peer, act: Act)
    requires Able(p, act) && Hello !in p.outbox
    ensures Hello !in PeerStep(p, act).outbox
  {
    hide Ids;
    match act
    case DoTake(throws) => TakeSaysNoHello(p, throws);
    case _ =>
  }

  lemma TakeSaysNoHello(p: Peer, throws: bool)
    requires Able(p, DoTake(throws)) && Hello !in p.outbox
    ensures Hello !in Take(p, throws).outbox
  {
    hide Ids;
    var q := Dequeued(p);
    assert q.outbox == p.outbox;
    match Queue(p)[0]
    case Work(batch) =>
      if |batch| == 1 && !throws {
        assert Take(p, throws).outbox == p.outbox + [Answer([batch[0].0])];
      }
    case _ =>
  }

  lemma OutsiderSteps(p: Peer, act: Act)
    requires Outsider(p) && Able(p, act)
    ensures Outsider(PeerStep(p, act))
  {
    hide Shaking, PeerStep;
    if Hello in p.outbox {
      ShakingSteps(p, act);
    } else {
      TalkHasNoHello(p, act);
    }
  }

  lemma NewPeerIsOutsider(have: Def)
    ensures Outsider(NewPeer(have)) && Shaking(NewPeer(have))
  {
    assert Greetings([Hello]) == 1 by { assert [Hello][1..] == []; }
  }

  lemma HeardShaking(p: Peer)
    requires Shaking(p) && p.outbox != []
    ensures Shaking(Heard(p))
    ensures p.outbox[0].Hello? || p.outbox[0].Inited? ==> p.inbox == [] && Greetings(Heard(p).outbox) == 0
  {
    assert forall r :: r in p.outbox[1..] ==> r in p.outbox;
    if p.alive {
      HeardGoodbye(p);
    }
  }

  lemma HeardOutsider(p: Peer)
    requires Outsider(p) && p.outbox != []
    ensures Outsider(Heard(p))
  {
    hide Shaking;
    assert forall r :: r in p.outbox[1..] ==> r in p.outbox;
    if Hello in p.outbox {
      HeardShaking(p);
    }
  }

  // The answer to INIT arrives: the worker is registered and is told the definition, as far as the
  // messages go out.
  lemma JoinsAsMember(lo: Coords, hi: Coords, o: Order, p: Peer, defSent: bool, idsSent: bool)
    requires IsBox(lo, hi) && Shaking(p) && p.outbox != [] && p.outbox[0].Inited?
    ensures var u := Post(Heard(p), Announce(o, defSent, idsSent));
            && Member(lo, hi, o, Knows(u, o), u, [], {})
            && (Knows(u, o) <==> Matches(After(p.have, Announce(o, defSent, idsSent)), o))
  {
    hide OnPoint, Matches, AllWorked, SaidGoodbye, Flat, Ids, Under, After, Loads, Announce, Announced, Greetings;
    var ms := Announce(o, defSent, idsSent);
    HeardShaking(p);
    var u := Post(Heard(p), ms);
    var s := Knows(u, o);
    NoGreetings(Heard(p).outbox);
    NoAnswers(u.outbox);
    assert Queue(u) == ms && [] + ms == ms;
    AnnounceIsTalk(o, defSent, idsSent);
    NoLoads(ms);
    NoWorkUnder(u.have, ms, o, s);
    NothingUnderway(u);
    NothingWorked(lo, hi, o, s, u.log);
  }

  lemma {:induction false} NoAnswers(rs: seq<Reply>)
    requires forall r :: r in rs ==> !r.Answer?
    ensures Answers(rs) == []
  {
    if rs != [] {
      assert rs[0] in rs && forall r :: r in rs[1..] ==> r in rs;
      NoAnswers(rs[1..]);
    }
  }
}

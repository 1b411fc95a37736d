// The worker's task loop as the object it is in the source: it takes one frame at a time and works a batch
// off in place. Whatever arrives, throws or interrupts it, it does a sequence of the steps of Workers.
module WorkerLoop {
  import opened Collections
  import opened TaskState
  import opened Flight
  import opened Workers

  ghost predicate Reaches(p: Peer, acts: seq<Act>, q: Peer)
    decreases |acts|
  {
    if acts == [] then p == q else Able(p, acts[0]) && Reaches(PeerStep(p, acts[0]), acts[1..], q)
  }

  lemma {:induction false} ReachesMore(p: Peer, acts: seq<Act>, q: Peer, act: Act)
    requires Reaches(p, acts, q) && Able(q, act)
    ensures Reaches(p, acts + [act], PeerStep(q, act))
    decreases |acts|
  {
    hide Able, PeerStep;
    if acts == [] {
      assert (acts + [act])[0] == act && (acts + [act])[1..] == [];
    } else {
      assert (acts + [act])[0] == acts[0] && (acts + [act])[1..] == acts[1..] + [act];
      ReachesMore(PeerStep(p, acts[0]), acts[1..], q, act);
    }
  }

  lemma ReachesNow(p: Peer)
    ensures Reaches(p, [], p)
  {
  }

  lemma {:induction false} ReachesChain(p: Peer, acts: seq<Act>, q: Peer, more: seq<Act>, r: Peer)
    requires Reaches(p, acts, q) && Reaches(q, more, r)
    ensures Reaches(p, acts + more, r)
    decreases |acts|
  {
    hide Able, PeerStep;
    if acts == [] {
      assert acts + more == more;
    } else {
      assert (acts + more)[0] == acts[0] && (acts + more)[1..] == acts[1..] + more;
      ReachesChain(PeerStep(p, acts[0]), acts[1..], q, more, r);
    }
  }

  lemma InterruptIs(p: Peer)
    requires Able(p, DoInterrupt)
    ensures PeerStep(p, DoInterrupt) == Interrupted(p)
  {
  }

  lemma EndIs(p: Peer)
    requires Able(p, DoEnd)
    ensures PeerStep(p, DoEnd) == EndBatch(p)
  {
  }

  lemma AckedMore(batch: seq<(Id, Payload)>, i: nat)
    requires i < |batch|
    ensures Ids(batch[..i + 1]) == Ids(batch[..i]) + [batch[i].0]
  {
    assert batch[..i + 1] == batch[..i] + [batch[i]];
    IdsSnoc(batch[..i], batch[i]);
  }

  // What the surroundings do at one abort check and the task after it.
  datatype Poll = Poll(interrupted: bool, ready: bool, throws: bool)

  predicate Stops(poll: Poll) { poll.interrupted || poll.throws }

  // The first of n polls that stops the worker, or n if none does.
  function FirstStop(polls: seq<Poll>, n: nat): (i: nat)
    requires n <= |polls|
    ensures i <= n && (forall k :: 0 <= k < i ==> !polls[k].interrupted && !polls[k].throws)
    ensures i < n ==> polls[i].interrupted || polls[i].throws
  {
    if n == 0 then 0
    else
      var i := FirstStop(polls, n - 1);
      if i < n - 1 || Stops(polls[n - 1]) then i else n
  }

  lemma StopIs(polls: seq<Poll>, n: nat, i: nat)
    requires i <= n <= |polls| && (i < n ==> polls[i].interrupted || polls[i].throws)
    requires forall k :: 0 <= k < i ==> !polls[k].interrupted && !polls[k].throws
    ensures FirstStop(polls, n) == i
  {
  }

  // The log after the tasks have been run one after the other under one definition.
  function Logged(log: map<Id, (Payload, Def)>, batch: seq<(Id, Payload)>, have: Def): map<Id, (Payload, Def)> {
    if batch == [] then log
    else
      var (n, e) := (|batch| - 1, batch[|batch| - 1]);
      Logged(log, batch[..n], have)[e.0 := (e.1, have)]
  }

  // For different tasks that is: each with its payload and the definition, and nothing else new.
  lemma {:induction false} LoggedIs(log: map<Id, (Payload, Def)>, batch: seq<(Id, Payload)>, have: Def)
    requires Distinct(Ids(batch))
    ensures var out := Logged(log, batch, have);
            && (forall e :: e in batch ==> e.0 in out && out[e.0] == (e.1, have))
            && (forall id :: id !in Ids(batch) ==> (id in out <==> id in log) && (id in log ==> out[id] == log[id]))
  {
    if batch != [] {
      var (init, e) := (batch[..|batch| - 1], batch[|batch| - 1]);
      assert batch == init + [e];
      hide Ids;
      LastApart(init, e);
      LoggedIs(log, init, have);
    }
  }

  lemma LastApart(init: seq<(Id, Payload)>, e: (Id, Payload))
    requires Distinct(Ids(init + [e]))
    ensures Ids(init + [e]) == Ids(init) + [e.0] && Distinct(Ids(init)) && e.0 !in Ids(init)
    ensures forall x :: x in init ==> x.0 in Ids(init)
  {
    IdsSnoc(init, e);
    IdsAre(init);
    var all := Ids(init + [e]);
    assert forall k :: 0 <= k < |Ids(init)| ==> all[k] == Ids(init)[k];
    assert all[|Ids(init)|] == e.0;
    forall x | x in init ensures x.0 in Ids(init) {
      var k :| 0 <= k < |init| && init[k] == x;
      assert Ids(init)[k] == x.0;
    }
  }

  // What a worker says at the end of a batch: the answer, or after an interrupt its last word and the
  // answer for the finished part, or after an exception its last word alone.
  function Said(batch: seq<(Id, Payload)>, polls: seq<Poll>, n: nat): seq<Reply>
    requires n <= |batch| && (n < |batch| ==> n < |polls|)
  {
    if n == |batch| then [Answer(Ids(batch))]
    else if polls[n].interrupted then [Goodbye] + (if n > 0 then [Answer(Ids(batch[..n]))] else [])
    else [Trouble]
  }

  // What working off a batch does, read from the polls alone.
  ghost predicate BatchDone(p: Peer, batch: seq<(Id, Payload)>, polls: seq<Poll>, q: Peer)
    requires |batch| <= |polls|
  {
    var n := FirstStop(polls, |batch|);
    && q.log == Logged(p.log, batch[..n], p.have) && q.have == p.have
    && q.outbox == p.outbox + Said(batch, polls, n)
    && q.alive == (n == |batch|) && (q.alive ==> q.bench.None?)
  }

  // What one turn of the loop does with the first frame.
  ghost predicate FrameDone(p: Peer, polls: seq<Poll>, q: Peer)
    requires Queue(p) != [] && |polls| > 0 && (Queue(p)[0].Work? ==> |Queue(p)[0].batch| <= |polls|)
  {
    && Queue(q) == Queue(p)[1..]
    && match Queue(p)[0]
       case Init => q.outbox == p.outbox + [Inited] && q.have == p.have && q.log == p.log && q.alive
       case SetDef(_) => q.outbox == p.outbox && q.have == Next(p.have, Queue(p)[0]) && q.log == p.log && q.alive
       case SetIds(ids) => q.outbox == p.outbox && q.have == p.have.(ids := ids) && q.log == p.log && q.alive
       case Work(batch) => WorkDone(p, batch, polls, q)
  }

  // A single task is run without a check before it, more of them as a batch.
  ghost predicate WorkDone(p: Peer, batch: seq<(Id, Payload)>, polls: seq<Poll>, q: Peer)
    requires |polls| > 0 && |batch| <= |polls|
  {
    if batch == [] then q.outbox == p.outbox && q.have == p.have && q.log == p.log && !q.alive
    else if |batch| == 1 then
      && q.have == p.have && q.alive == !polls[0].throws
      && q.log == (if q.alive then p.log[batch[0].0 := (batch[0].1, p.have)] else p.log)
      && q.outbox == p.outbox + (if q.alive then [Answer([batch[0].0])] else [Trouble])
    else BatchDone(p, batch, polls, q)
  }

  lemma BatchDoneFrom(o: Peer, p: Peer, batch: seq<(Id, Payload)>, polls: seq<Poll>, q: Peer)
    requires |batch| <= |polls| && BatchDone(p, batch, polls, q) && o == p.(bench := o.bench)
    ensures BatchDone(o, batch, polls, q)
  {
    hide Logged, Said;
  }

  class TaskLoop {
    var inbox: seq<Msg>
    var deferredFrames: seq<Msg>
    var outbox: seq<Reply>
    var definition: Def
    var running: bool
    ghost var bench: Option<Bench>
    ghost var log: map<Id, (Payload, Def)>

    ghost function View(): Peer
      reads this
    {
      Peer(inbox, deferredFrames, outbox, definition, bench, log, running)
    }

    constructor (current: Def)
      ensures View() == NewPeer(current)
    {
      inbox, deferredFrames, outbox, definition, running := [], [], [Hello], current, true;
      bench, log := None, map[];
    }

    // Runs the task; what it computes is not modelled, only that it was run and under which definition.
    method Process(task: (Id, Payload))
      modifies this`log
      ensures View() == Processed(old(View()), task)
    {
      log := log[task.0 := (task.1, definition)];
    }

    method Send(reply: Reply)
      modifies this`outbox
      ensures View() == old(View()).(outbox := old(outbox) + [reply])
    {
      outbox := outbox + [reply];
    }

    // A frame seen between two tasks of a batch is kept for later, behind those kept before.
    method KeepForLater()
      requires inbox != []
      modifies this`inbox, this`deferredFrames
      ensures View() == Defer(old(View()))
    {
      deferredFrames := deferredFrames + [inbox[0]];
      inbox := inbox[1..];
    }

    method HandleTask(task: (Id, Payload), throws: bool)
      requires running && bench.None?
      modifies this
      ensures View() == if throws then Died(old(View()), [Trouble])
                        else Processed(old(View()), task).(outbox := old(outbox) + [Answer([task.0])])
    {
      if throws {
        Send(Trouble);
        running := false;
      } else {
        Process(task);
        Send(Answer([task.0]));
      }
    }

    // One task of a batch, after the abort check before it: a frame that is there is kept for later.
    method NextInBatch(batch: seq<(Id, Payload)>, i: nat, poll: Poll) returns (ghost acts: seq<Act>)
      requires running && i < |batch| && bench == Some(Bench(batch, i))
      modifies this
      ensures Reaches(old(View()), acts, View())
      ensures running <==> !poll.throws
      ensures running ==> bench == Some(Bench(batch, i + 1))
      ensures Queue(View()) == Queue(old(View())) && definition == old(definition)
      ensures outbox == old(outbox) + (if running then [] else [Trouble])
      ensures log == if running then old(log)[batch[i].0 := (batch[i].1, definition)] else old(log)
    {
      ghost var start := View();
      acts := [];
      if poll.ready && inbox != [] {
        ReachesMore(start, [], View(), DoDefer);
        acts := [DoDefer];
        KeepForLater();
      }
      ReachesMore(start, acts, View(), DoNext(poll.throws));
      acts := acts + [DoNext(poll.throws)];
      if poll.throws {
        Send(Trouble);
        running := false;
      } else {
        Process(batch[i]);
        bench := Some(Bench(batch, i + 1));
      }
    }

    // Works off the batch at hand. Between two tasks a signal or a new frame may arrive; after a signal the
    // shutdown notice goes out first and the answer for the finished part after it.
    method HandleBatch(batch: seq<(Id, Payload)>, polls: seq<Poll>) returns (ghost acts: seq<Act>)
      requires running && bench == Some(Bench(batch, 0)) && |polls| >= |batch|
      modifies this
      ensures Reaches(old(View()), acts, View()) && (bench.None? || !running)
      ensures Queue(View()) == Queue(old(View())) && BatchDone(old(View()), batch, polls, View())
    {
      hide Reaches, PeerStep, FirstStop, Stops, Logged;
      LoggedNone(log, batch, definition);
      var acked: seq<Id> := [];
      var i := 0;
      ghost var start := View();
      acts := [];
      ReachesNow(start);
      while i < |batch|
        invariant i <= |batch| && running && bench == Some(Bench(batch, i)) && acked == Ids(batch[..i])
        invariant Reaches(start, acts, View()) && Queue(View()) == Queue(start)
        invariant outbox == start.outbox && definition == start.have && log == Logged(start.log, batch[..i], definition)
        invariant forall k :: 0 <= k < i ==> !polls[k].interrupted && !polls[k].throws
      {
        if polls[i].interrupted || polls[i].throws {
          StopIs(polls, |batch|, i);
        }
        if polls[i].interrupted {
          ReachesMore(start, acts, View(), DoInterrupt);
          acts := acts + [DoInterrupt];
          InterruptIs(View());
          FinishInterrupted(batch, i, acked);
          assert outbox == start.outbox + ([Goodbye] + if i > 0 then [Answer(acked)] else []);
          return;
        }
        ghost var mid := View();
        ghost var more := NextInBatch(batch, i, polls[i]);
        ReachesChain(start, acts, mid, more, View());
        acts := acts + more;
        if !running {
          return;
        }
        AckedMore(batch, i);
        LoggedMore(start.log, batch, i, definition);
        acked := acked + [batch[i].0];
        i := i + 1;
      }
      assert batch[..i] == batch;
      StopIs(polls, |batch|, i);
      ReachesMore(start, acts, View(), DoEnd);
      acts := acts + [DoEnd];
      EndIs(View());
      Send(Answer(acked));
      bench := None;
    }

    method FinishInterrupted(batch: seq<(Id, Payload)>, done: nat, acked: seq<Id>)
      requires running && bench == Some(Bench(batch, done)) && done <= |batch| && acked == Ids(batch[..done])
      modifies this
      ensures View() == Interrupted(old(View()))
      ensures outbox == old(outbox) + [Goodbye] + (if done > 0 then [Answer(acked)] else []) && !running
      ensures Queue(View()) == Queue(old(View())) && definition == old(definition) && log == old(log)
    {
      IdsAre(batch[..done]);
      Send(Goodbye);
      if acked != [] {
        Send(Answer(acked));
      }
      running := false;
    }

    // One turn of the loop: a deferred frame comes before anything newer.
    method HandleNext(interrupted: bool, polls: seq<Poll>) returns (ghost acts: seq<Act>)
      requires running && bench.None? && |polls| > 0
      requires forall m :: m in Queue(View()) && m.Work? ==> |m.batch| <= |polls|
      modifies this
      ensures Reaches(old(View()), acts, View()) && (bench.None? || !running)
      ensures interrupted ==> View() == old(View()).(outbox := old(outbox) + [Goodbye], alive := false)
      ensures !interrupted && Queue(old(View())) == [] ==> View() == old(View())
      ensures !interrupted && Queue(old(View())) != [] ==> FrameDone(old(View()), polls, View())
    {
      ghost var start := View();
      acts := [];
      if interrupted {
        Send(Goodbye);
        running := false;
        ReachesMore(start, [], start, DoInterrupt);
        return [DoInterrupt];
      }
      if deferredFrames == [] && inbox == [] {
        return [];
      }
      assert Queue(View())[0] in Queue(View());
      DequeuedFields(start);
      var frame := NextFrame();
      if frame.Work? {
        acts := HandleWork(frame.batch, polls, start);
      } else {
        HandleSetting(frame);
        ReachesMore(start, [], start, DoTake(false));
        acts := [DoTake(false)];
      }
    }

    method HandleSetting(frame: Msg)
      requires !frame.Work?
      modifies this
      ensures frame.Init? ==> View() == old(View()).(outbox := old(outbox) + [Inited])
      ensures !frame.Init? ==> View() == old(View()).(have := Next(old(definition), frame))
    {
      match frame {
        case Init => Send(Inited);
        case SetDef(name) => SetCurrentDefinitionName(name);
        case SetIds(ids) => definition := definition.(ids := ids);
      }
    }

    method HandleWork(batch: seq<(Id, Payload)>, polls: seq<Poll>, ghost start: Peer) returns (ghost acts: seq<Act>)
      requires running && bench.None? && |polls| > 0 && |batch| <= |polls|
      requires Able(start, DoTake(polls[0].throws)) && Queue(start)[0] == Work(batch) && View() == Dequeued(start)
      modifies this
      ensures Reaches(start, acts, View()) && (bench.None? || !running)
      ensures Queue(View()) == Queue(old(View())) && WorkDone(old(View()), batch, polls, View())
    {
      hide Reaches, BatchDone;
      ReachesNow(start);
      ReachesMore(start, [], start, DoTake(polls[0].throws));
      acts := [DoTake(polls[0].throws)];
      assert [] + acts == acts;
      if batch == [] {
        assert outbox + [] == outbox;
        running := false;
      } else if |batch| == 1 {
        HandleTask(batch[0], polls[0].throws);
      } else {
        bench := Some(Bench(batch, 0));
        ghost var p := View();
        ghost var more := HandleBatch(batch, polls);
        ReachesBoth(start, DoTake(polls[0].throws), more, View());
        BatchDoneFrom(Dequeued(start), p, batch, polls, View());
        acts := acts + more;
      }
    }

    // The ids go in any case; a name that the binning does not have is ignored.
    method SetCurrentDefinitionName(name: string)
      modifies this`definition
      ensures View() == old(View()).(have := Next(old(definition), SetDef(name)))
    {
      definition := definition.(ids := []);
      if name in definition.known {
        definition := definition.(name := name);
      }
    }

    method NextFrame() returns (frame: Msg)
      requires Queue(View()) != []
      modifies this`inbox, this`deferredFrames
      ensures frame == Queue(old(View()))[0] && View() == Dequeued(old(View()))
    {
      if deferredFrames != [] {
        frame := deferredFrames[0];
        deferredFrames := deferredFrames[1..];
      } else {
        frame := inbox[0];
        inbox := inbox[1..];
      }
    }
  }

  lemma LoggedNone(log: map<Id, (Payload, Def)>, batch: seq<(Id, Payload)>, have: Def)
    ensures Logged(log, batch[..0], have) == log
  {
  }

  lemma LoggedMore(log: map<Id, (Payload, Def)>, batch: seq<(Id, Payload)>, i: nat, have: Def)
    requires i < |batch|
    ensures Logged(log, batch[..i + 1], have) == Logged(log, batch[..i], have)[batch[i].0 := (batch[i].1, have)]
  {
    assert batch[..i + 1][..i] == batch[..i];
  }

  lemma ReachesBoth(p: Peer, act: Act, more: seq<Act>, q: Peer)
    requires Able(p, act) && Reaches(PeerStep(p, act), more, q)
    ensures Reaches(p, [act] + more, q)
  {
    hide Able, PeerStep;
    assert ([act] + more)[1..] == more;
  }
}

// The supervisor of one definition as a step machine on values. Messages, timeouts, crashes and
// send outcomes are arbitrary inputs here: nothing is assumed about how the workers behave.
module Supervisor {
  import opened Collections
  import opened TaskState
  import opened Odometer

  // What stays fixed while one definition is dispatched.
  datatype Job = Job(tcp: bool, lo: Coords, hi: Coords, batch: nat, cap: nat)

  predicate JobOk(job: Job) {
    IsBox(job.lo, job.hi) && job.lo != [] && job.batch >= 1 && job.cap >= 1
  }

  function TotalTasks(job: Job): nat
    requires JobOk(job)
  {
    Volume(job.lo, job.hi)
  }

  datatype Sup = Sup(
    tasks: Tasks,
    history: map<Worker, set<Id>>,   // every task sent to a worker in this definition
    roster: seq<Worker>,             // registered workers in dispatch order
    index: map<Worker, nat>,         // registered identity -> worker index
    failed: set<Worker>,             // workers marked after a failed send
    counts: map<nat, nat>,           // worker index -> tasks it has completed
    inFlight: map<Worker, nat>,      // unanswered messages per worker
    messages: nat,                   // unanswered messages in all
    outstanding: nat,
    acked: nat,
    next: nat,                       // id of the next new task
    cur: Coords,
    hasMore: bool,
    turn: nat,                       // round-robin position
    joining: map<Worker, nat>,       // INIT sent, answer not yet seen
    error: bool)

  function Min(a: nat, b: nat): nat { if a < b then a else b }
  function Max(a: nat, b: nat): nat { if a < b then b else a }
  function Sent(s: Sup, w: Worker): set<Id> { TasksOf(s.history, w) }
  function Unanswered(s: Sup, w: Worker): nat { if w in s.inFlight then s.inFlight[w] else 0 }

  // ----- start of a definition

  function Begin(job: Job, roster: seq<Worker>, index: map<Worker, nat>, unreachable: set<Worker>): Sup {
    Sup(EMPTY, map[], roster, index, unreachable, map[], map[], 0, 0, 0, 0, job.lo, true, 0, map[], false)
  }

  // ----- worker failure

  datatype Replay = Replay(tasks: Tasks, live: nat, done: nat)

  function ReplayOne(r: Replay, id: Id): Replay {
    if !CanRequeue(r.tasks, id) then r
    else if id in r.tasks.done then Replay(Requeue(r.tasks, id), r.live, r.done + 1)
    else Replay(Requeue(r.tasks, id), r.live + 1, r.done)
  }

  function ReplayEach(t: Tasks, ids: seq<Id>): Replay {
    if ids == [] then Replay(t, 0, 0) else ReplayOne(ReplayEach(t, ids[..|ids| - 1]), ids[|ids| - 1])
  }

  function Deduct(counts: map<nat, nat>, i: nat, n: nat): map<nat, nat> {
    if i !in counts then counts
    else if counts[i] <= n then counts - {i}
    else counts[i := counts[i] - n]
  }

  function RemoveFirst(roster: seq<Worker>, w: Worker): seq<Worker> {
    if roster == [] then []
    else if roster[0] == w then roster[1..]
    else [roster[0]] + RemoveFirst(roster[1..], w)
  }

  // Takes the worker off every list; the counters are those left after the replay.
  function Unregister(s: Sup, w: Worker, t: Tasks, outstanding: nat, acked: nat, counts: map<nat, nat>): Sup {
    s.(tasks := t, history := s.history - {w}, outstanding := outstanding, acked := acked, counts := counts,
       roster := RemoveFirst(s.roster, w), index := s.index - {w}, failed := s.failed - {w})
  }

  function CountsLeft(counts: map<nat, nat>, index: map<Worker, nat>, w: Worker, redistributed: nat): map<nat, nat> {
    if w in index then Deduct(counts, index[w], redistributed) else counts
  }

  ghost function HandleFailure(s: Sup, w: Worker): Sup {
    var r := ReplayEach(s.tasks, Ascending(Sent(s, w)));
    var live := r.live + |TasksOf(r.tasks.workerTasks, w)|;
    Unregister(s, w, Recover(r.tasks, w), s.outstanding - Min(s.outstanding, live), s.acked - Min(s.acked, r.done),
               CountsLeft(s.counts, s.index, w, live + r.done))
  }

  function ReleaseMessages(s: Sup, w: Worker): Sup {
    s.(messages := s.messages - Min(s.messages, Unanswered(s, w)), inFlight := s.inFlight - {w})
  }

  ghost function FailWorker(s: Sup, w: Worker): Sup { ReleaseMessages(HandleFailure(s, w), w) }

  ghost function FailEach(s: Sup, ws: seq<Worker>): Sup
    decreases |ws|
  {
    if ws == [] then s else FailEach(FailWorker(s, ws[0]), ws[1..])
  }

  function Marked(roster: seq<Worker>, failed: set<Worker>): seq<Worker> {
    if roster == [] then []
    else (if roster[0] in failed then [roster[0]] else []) + Marked(roster[1..], failed)
  }

  // Removes the workers marked by failed sends.
  ghost function Cleanup(s: Sup): Sup {
    if s.failed == {} then s
    else
      var u := FailEach(s, Marked(s.roster, s.failed));
      if u.roster == [] then u.(error := true) else u
  }

  // ----- acknowledgements

  function CountUp(counts: map<nat, nat>, i: nat): map<nat, nat> { counts[i := Lookup(counts, i, 0) + 1] }

  function OneLess(m: map<Worker, nat>, w: Worker): map<Worker, nat> {
    if w !in m then m else if m[w] <= 1 then m - {w} else m[w := m[w] - 1]
  }

  predicate Accepts(s: Sup, w: Worker, id: Id) {
    w in s.index && OwnerName(s.tasks, id) == w && id in s.tasks.running
  }

  function Finish(s: Sup, w: Worker, id: Id): Sup
    requires Accepts(s, w, id)
  {
    s.(tasks := Done(s.tasks, id), counts := CountUp(s.counts, s.index[w]))
  }

  // One task and one message of the worker are answered; a counter at zero ends the run.
  function Settle(s: Sup, w: Worker): Sup {
    if s.outstanding == 0 || s.messages == 0 then s.(error := true)
    else s.(outstanding := s.outstanding - 1, messages := s.messages - 1,
            inFlight := OneLess(s.inFlight, w), acked := s.acked + 1)
  }

  function Ack(s: Sup, w: Worker, id: Id): Sup {
    if !Accepts(s, w, id) then s else Settle(Finish(s, w, id), w)
  }

  function AckToken(s: Sup, w: Worker, id: Id): Sup {
    if s.error || !Accepts(s, w, id) then s
    else
      var u := Finish(s, w, id);
      if u.outstanding == 0 then u.(error := true)
      else u.(outstanding := u.outstanding - 1, acked := u.acked + 1)
  }

  function AckTokens(s: Sup, w: Worker, ids: seq<Id>): Sup {
    if ids == [] then s else AckToken(AckTokens(s, w, ids[..|ids| - 1]), w, ids[|ids| - 1])
  }

  // The ids of a well-formed ACKB payload; an empty or malformed one ends the run like any other error.
  function AckB(s: Sup, w: Worker, ids: seq<Id>): Sup {
    if w !in s.index then s
    else if s.messages == 0 then s.(error := true)
    else AckTokens(s.(messages := s.messages - 1, inFlight := OneLess(s.inFlight, w)), w, ids)
  }

  // ----- dispatch

  function MaxMessages(s: Sup): nat { Max(4, |s.roster|) }

  predicate Eligible(job: Job, s: Sup, w: Worker) { w !in s.failed && Unanswered(s, w) < job.cap }

  datatype Choice = Choice(found: bool, worker: Worker, turn: nat)

  function Search(job: Job, s: Sup, turn: nat, left: nat): Choice
    requires s.roster != []
    decreases left
  {
    var w := s.roster[turn % |s.roster|];
    if left == 0 then Choice(false, w, turn)
    else if Eligible(job, s, w) then Choice(true, w, turn)
    else Search(job, s, turn + 1, left - 1)
  }

  function Pick(job: Job, s: Sup): Choice
    requires s.roster != []
  {
    if job.tcp then Search(job, s, s.turn, |s.roster|)
    else Choice(true, s.roster[s.turn % |s.roster|], s.turn)
  }

  function BatchSize(job: Job, s: Sup): nat
    requires JobOk(job) && s.roster != []
  {
    var nw := |s.roster|;
    var remaining := if s.next < TotalTasks(job) then TotalTasks(job) - s.next else 0;
    Max(1, Min(job.batch, Max(1, (remaining + nw - 1) / nw)))
  }

  function ReplayShare(job: Job, s: Sup): nat
    requires JobOk(job) && s.roster != []
  {
    if BatchSize(job, s) > 1 then Max(1, BatchSize(job, s) / |s.roster|) else 1
  }

  function ClaimFor(s: Sup, w: Worker): Sup
    requires s.tasks.queue != []
  {
    var id := s.tasks.queue[0].0;
    s.(tasks := Claim(s.tasks, w), history := s.history[w := Sent(s, w) + {id}], outstanding := s.outstanding + 1)
  }

  // The next new task enters the queue and the odometer moves on.
  function Fresh(job: Job, s: Sup): Sup
    requires JobOk(job)
  {
    var more := s.next + 1 < TotalTasks(job);
    s.(tasks := Add(s.tasks, s.next, s.cur), next := s.next + 1,
       hasMore := more, cur := if more then Point(job.lo, job.hi, s.next + 1) else job.lo)
  }

  datatype Filled = Filled(s: Sup, batch: seq<(Id, Payload)>)

  function TakeQueued(f: Filled, w: Worker, limit: nat, room: nat): Filled
    decreases room
  {
    if room == 0 || f.s.tasks.queue == [] || f.s.outstanding >= limit then f
    else TakeQueued(Filled(ClaimFor(f.s, w), f.batch + [f.s.tasks.queue[0]]), w, limit, room - 1)
  }

  function TakeNew(job: Job, f: Filled, w: Worker, limit: nat, room: nat): Filled
    requires JobOk(job)
    decreases room
  {
    if room == 0 || !f.s.hasMore || f.s.outstanding >= limit then f
    else if Exists(f.s.tasks, f.s.next) then Filled(f.s.(error := true), f.batch)
    else
      var u := Fresh(job, f.s);
      TakeNew(job, Filled(ClaimFor(u, w), f.batch + [u.tasks.queue[0]]), w, limit, room - 1)
  }

  function Fill(job: Job, s: Sup, w: Worker): Filled
    requires JobOk(job) && s.roster != []
  {
    var limit, size := MaxMessages(s) * job.batch, BatchSize(job, s);
    var f := TakeQueued(Filled(s, []), w, limit, Min(size, ReplayShare(job, s)));
    TakeNew(job, f, w, limit, if |f.batch| < size then size - |f.batch| else 0)
  }

  function FailTasks(t: Tasks, batch: seq<(Id, Payload)>): Tasks {
    if batch == [] then t
    else
      var u := FailTasks(t, batch[..|batch| - 1]);
      var id := batch[|batch| - 1].0;
      if id in u.running then Failed(u, id) else u
  }

  predicate CanDispatch(s: Sup) {
    !s.error && s.roster != [] && (s.hasMore || s.tasks.queue != []) && s.messages < MaxMessages(s)
  }

  // One pass of the dispatch loop; sent says whether the socket took the message. A failed TCP send
  // leaves the loop and the marked workers are removed before anything else happens.
  ghost function Dispatch(job: Job, s: Sup, sent: bool): Sup
    requires JobOk(job) && s.roster != []
  {
    var c := Pick(job, s);
    var u := s.(turn := c.turn);
    if !c.found then u
    else
      var f := Fill(job, u, c.worker);
      if f.s.error || f.batch == [] then f.s
      else if sent then
        f.s.(turn := f.s.turn + 1, messages := f.s.messages + 1,
             inFlight := f.s.inFlight[c.worker := Unanswered(f.s, c.worker) + 1])
      else if job.tcp then
        Cleanup(f.s.(failed := f.s.failed + {c.worker}, tasks := FailTasks(f.s.tasks, f.batch)))
      else f.s.(error := true)
  }

  // ----- late workers

  function Ready(s: Sup, w: Worker, i: nat): Sup {
    if w in s.index || w in s.joining then s else s.(joining := s.joining[w := i])
  }

  function InitAck(s: Sup, w: Worker): Sup {
    if w !in s.joining then s
    else
      var roster := if w in s.index then RemoveFirst(s.roster, w) else s.roster;
      s.(index := s.index[w := s.joining[w]], roster := roster + [w], joining := s.joining - {w})
  }
}

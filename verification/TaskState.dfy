// Task life cycle of the dispatcher: pending -> running -> done, and back to pending on a failure.
// The datatype Tasks is the abstract value of the manager; the class TaskStateManager is the
// object whose methods update the seven containers in place.
module TaskState {
  import opened Collections

  type Id = nat
  datatype Worker = Worker(name: string)
  type Payload = seq<int>

  datatype Tasks = Tasks(
    queue: seq<(Id, Payload)>,
    pending: set<Id>,
    running: map<Id, Payload>,
    done: set<Id>,
    workerTasks: map<Worker, set<Id>>,
    owner: map<Id, Worker>,
    payloads: map<Id, Payload>)

  const EMPTY := Tasks([], {}, map[], {}, map[], map[], map[])

  // ----- the invariant of the seven containers

  function QueueIds(q: seq<(Id, Payload)>): set<Id> {
    if q == [] then {} else {q[0].0} + QueueIds(q[1..])
  }

  predicate UniqueIds(q: seq<(Id, Payload)>) {
    q == [] || (q[0].0 !in QueueIds(q[1..]) && UniqueIds(q[1..]))
  }

  predicate Carried(q: seq<(Id, Payload)>, payloads: map<Id, Payload>) {
    forall e :: e in q ==> e.0 in payloads && payloads[e.0] == e.1
  }

  ghost predicate QueueIndexed(t: Tasks) {
    UniqueIds(t.queue) && QueueIds(t.queue) == t.pending
  }

  ghost predicate Partitioned(t: Tasks) {
    && t.pending !! t.running.Keys !! t.done
    && t.pending + t.running.Keys + t.done == t.payloads.Keys
  }

  ghost predicate PayloadsAgree(t: Tasks) {
    && Carried(t.queue, t.payloads)
    && (forall id :: id in t.running ==> id in t.payloads && t.payloads[id] == t.running[id])
  }

  // The two owner maps are mutually inverse and no worker keeps an empty set.
  ghost predicate Inverse(owner: map<Id, Worker>, workerTasks: map<Worker, set<Id>>) {
    && (forall id :: id in owner ==> owner[id] in workerTasks && id in workerTasks[owner[id]])
    && (forall w :: w in workerTasks ==> workerTasks[w] != {})
    && (forall w, id :: w in workerTasks && id in workerTasks[w] ==> id in owner && owner[id] == w)
  }

  ghost predicate OwnersInverse(t: Tasks) {
    t.owner.Keys <= t.running.Keys && Inverse(t.owner, t.workerTasks)
  }

  ghost predicate TasksInv(t: Tasks) {
    QueueIndexed(t) && Partitioned(t) && PayloadsAgree(t) && OwnersInverse(t)
  }

  // ----- the operations on the abstract value

  predicate Exists(t: Tasks, id: Id) {
    id in t.pending || id in t.running || id in t.done || id in t.payloads
  }

  function Enqueue(t: Tasks, id: Id, p: Payload): Tasks {
    if id in t.pending then t
    else t.(queue := t.queue + [(id, p)], pending := t.pending + {id})
  }

  function TasksOf(m: map<Worker, set<Id>>, w: Worker): set<Id> { if w in m then m[w] else {} }

  function Own(t: Tasks, w: Worker, id: Id): Tasks {
    t.(workerTasks := t.workerTasks[w := TasksOf(t.workerTasks, w) + {id}], owner := t.owner[id := w])
  }

  function DropFromWorker(m: map<Worker, set<Id>>, w: Worker, id: Id): map<Worker, set<Id>> {
    var rest := TasksOf(m, w) - {id};
    if rest == {} then m - {w} else m[w := rest]
  }

  function Disown(t: Tasks, id: Id): Tasks {
    if id !in t.owner then t
    else t.(workerTasks := DropFromWorker(t.workerTasks, t.owner[id], id), owner := t.owner - {id})
  }

  function Add(t: Tasks, id: Id, p: Payload): Tasks {
    var e := Enqueue(t, id, p);
    e.(payloads := e.payloads[id := p])
  }

  function Claim(t: Tasks, w: Worker): Tasks
    requires t.queue != []
  {
    var (id, p) := t.queue[0];
    Own(t.(queue := t.queue[1..], pending := t.pending - {id}, running := t.running[id := p]), w, id)
  }

  function Without(q: seq<(Id, Payload)>, id: Id): seq<(Id, Payload)> {
    if q == [] then []
    else if q[0].0 == id then q[1..]
    else [q[0]] + Without(q[1..], id)
  }

  function Assign(t: Tasks, w: Worker, id: Id): Tasks
    requires id in QueueIds(t.queue)
  {
    var p := Find(t.queue, id);
    Own(t.(queue := Without(t.queue, id), pending := t.pending - {id}, running := t.running[id := p]), w, id)
  }

  function Find(q: seq<(Id, Payload)>, id: Id): Payload
    requires id in QueueIds(q)
  {
    if q[0].0 == id then q[0].1 else Find(q[1..], id)
  }

  function Done(t: Tasks, id: Id): Tasks
    requires id in t.running
  {
    Disown(t.(done := t.done + {id}, running := t.running - {id}), id)
  }

  function Failed(t: Tasks, id: Id): Tasks
    requires id in t.running
  {
    Disown(Enqueue(t.(running := t.running - {id}), id, t.running[id]), id)
  }

  predicate CanRequeue(t: Tasks, id: Id) {
    id in t.running || (id in t.done && id in t.payloads)
  }

  function Requeue(t: Tasks, id: Id): Tasks {
    if id in t.running then Failed(t, id)
    else if id in t.done && id in t.payloads then Enqueue(t.(done := t.done - {id}), id, t.payloads[id])
    else t
  }

  // One step of the recovery loop: a task of the failed worker returns to the queue.
  function RecoverOne(t: Tasks, id: Id): Tasks {
    var u := if id in t.running
             then var e := Enqueue(t, id, t.running[id]); e.(running := e.running - {id})
             else t;
    u.(owner := u.owner - {id})
  }

  function RecoverEach(t: Tasks, ids: seq<Id>): Tasks {
    if ids == [] then t else RecoverOne(RecoverEach(t, ids[..|ids| - 1]), ids[|ids| - 1])
  }

  ghost function Recover(t: Tasks, w: Worker): Tasks {
    if w !in t.workerTasks then t
    else
      var u := RecoverEach(t, Ascending(t.workerTasks[w]));
      u.(workerTasks := u.workerTasks - {w})
  }

  function Unassign(t: Tasks, w: Worker, id: Id): Tasks
    requires w in t.workerTasks && id in t.workerTasks[w]
  {
    t.(workerTasks := DropFromWorker(t.workerTasks, w, id), owner := t.owner - {id})
  }

  // The empty name stands for no owner, as the source's lookup returns it.
  function OwnerName(t: Tasks, id: Id): Worker { if id in t.owner then t.owner[id] else Worker("") }
  function Total(t: Tasks): nat { |t.queue| + |t.running| + |t.done| }

  // ----- every operation keeps the invariant

  lemma EmptyInv()
    ensures TasksInv(EMPTY)
  {
  }

  lemma {:induction false} AppendIds(q: seq<(Id, Payload)>, e: (Id, Payload))
    ensures QueueIds(q + [e]) == QueueIds(q) + {e.0}
    ensures UniqueIds(q) && e.0 !in QueueIds(q) ==> UniqueIds(q + [e])
  {
    if q != [] {
      AppendIds(q[1..], e);
      assert (q + [e])[1..] == q[1..] + [e];
    }
  }

  lemma {:induction false} CountIds(q: seq<(Id, Payload)>)
    requires UniqueIds(q)
    ensures |QueueIds(q)| == |q|
  {
    if q != [] {
      CountIds(q[1..]);
    }
  }

  lemma {:induction false} WithoutIds(q: seq<(Id, Payload)>, id: Id)
    requires UniqueIds(q) && id in QueueIds(q)
    ensures UniqueIds(Without(q, id)) && QueueIds(Without(q, id)) == QueueIds(q) - {id}
    ensures |Without(q, id)| == |q| - 1
    ensures forall e :: e in Without(q, id) ==> e in q
    ensures (id, Find(q, id)) in q
  {
    if q[0].0 == id {
      assert (id, Find(q, id)) == q[0];
    } else {
      WithoutIds(q[1..], id);
      assert Without(q, id)[1..] == Without(q[1..], id);
    }
  }

  lemma EnqueueKeeps(t: Tasks, id: Id, p: Payload)
    requires QueueIndexed(t)
    ensures QueueIndexed(Enqueue(t, id, p))
  {
    AppendIds(t.queue, (id, p));
  }

  lemma AddKeeps(t: Tasks, id: Id, p: Payload)
    requires TasksInv(t) && !Exists(t, id)
    ensures TasksInv(Add(t, id, p))
  {
    EnqueueKeeps(t, id, p);
  }

  lemma OwnKeeps(t: Tasks, w: Worker, id: Id)
    requires OwnersInverse(t) && id !in t.owner && id in t.running
    ensures OwnersInverse(Own(t, w, id))
  {
  }

  lemma DropInverse(owner: map<Id, Worker>, m: map<Worker, set<Id>>, id: Id)
    requires Inverse(owner, m) && id in owner
    ensures Inverse(owner - {id}, DropFromWorker(m, owner[id], id))
  {
    var w := owner[id];
    var n, left := DropFromWorker(m, w, id), owner - {id};
    forall x | x in left ensures left[x] in n && x in n[left[x]] {
      assert x in m[owner[x]];
      if owner[x] == w {
        assert x in m[w] - {id};
      }
    }
    forall v, x | v in n && x in n[v] ensures x in left && left[x] == v {
      assert v in m && x in m[v];
    }
  }

  lemma OwnerIff(t: Tasks, w: Worker, id: Id)
    requires TasksInv(t)
    ensures w in t.workerTasks && id in t.workerTasks[w] <==> id in t.owner && t.owner[id] == w
  {
    hide QueueIndexed, Partitioned, PayloadsAgree;
  }

  lemma DisownKeeps(t: Tasks, id: Id)
    requires t.owner.Keys - {id} <= t.running.Keys && Inverse(t.owner, t.workerTasks)
    requires id !in t.running
    ensures OwnersInverse(Disown(t, id))
  {
    if id in t.owner {
      DropInverse(t.owner, t.workerTasks, id);
    }
  }

  lemma ClaimKeeps(t: Tasks, w: Worker)
    requires TasksInv(t) && t.queue != []
    ensures TasksInv(Claim(t, w))
  {
    var (id, p) := t.queue[0];
    var u := Claim(t, w);
    assert t.queue[0] in t.queue;
    OwnKeeps(t.(running := t.running[id := p]), w, id);
  }

  lemma AssignKeeps(t: Tasks, w: Worker, id: Id)
    requires TasksInv(t) && id in t.pending
    ensures TasksInv(Assign(t, w, id))
    ensures |Assign(t, w, id).queue| == |t.queue| - 1
  {
    hide Inverse, Without, Find, UniqueIds, QueueIds;
    WithoutIds(t.queue, id);
    OwnKeeps(t.(running := t.running[id := Find(t.queue, id)]), w, id);
  }

  lemma DoneKeeps(t: Tasks, id: Id)
    requires TasksInv(t) && id in t.running
    ensures TasksInv(Done(t, id))
  {
    var u := t.(done := t.done + {id}, running := t.running - {id});
    DisownKeeps(u, id);
  }

  lemma FailedKeeps(t: Tasks, id: Id)
    requires TasksInv(t) && id in t.running
    ensures TasksInv(Failed(t, id))
    ensures Failed(t, id).queue == t.queue + [(id, t.payloads[id])]
  {
    var v := t.(running := t.running - {id});
    EnqueueKeeps(v, id, t.running[id]);
    var u := Enqueue(v, id, t.running[id]);
    DisownKeeps(u, id);
  }

  lemma RequeueKeeps(t: Tasks, id: Id)
    requires TasksInv(t)
    ensures TasksInv(Requeue(t, id))
  {
    if id in t.running {
      FailedKeeps(t, id);
    } else if id in t.done {
      EnqueueKeeps(t.(done := t.done - {id}), id, t.payloads[id]);
    }
  }

  // What requeueing does to each container: the task is taken out of running, done and ownership.
  lemma RequeueEffect(t: Tasks, id: Id)
    requires TasksInv(t)
    ensures CanRequeue(t, id) <==> id in t.running || id in t.done
    ensures !(id in t.running && id in t.done)
    ensures var u := Requeue(t, id);
            && TasksInv(u)
            && u.running == t.running - {id} && u.done == t.done - {id} && u.owner == t.owner - {id}
            && u.payloads == t.payloads
            && u.pending == (if CanRequeue(t, id) then t.pending + {id} else t.pending)
            && (!CanRequeue(t, id) ==> u == t)
            && u.queue == if CanRequeue(t, id) then t.queue + [(id, t.payloads[id])] else t.queue
  {
    RequeueKeeps(t, id);
    if id in t.running {
      FailedKeeps(t, id);
    }
  }

  lemma ClaimEffect(t: Tasks, w: Worker)
    requires TasksInv(t) && t.queue != []
    ensures var (id, p) := t.queue[0];
            var u := Claim(t, w);
            && TasksInv(u) && id in t.pending && id !in t.running && id !in t.done
            && p == t.payloads[id] && u.queue == t.queue[1..] && u.pending == t.pending - {id}
            && u.running == t.running[id := p] && u.done == t.done
            && u.owner == t.owner[id := w] && u.payloads == t.payloads
  {
    ClaimKeeps(t, w);
    assert t.queue[0] in t.queue;
  }

  lemma DoneEffect(t: Tasks, id: Id)
    requires TasksInv(t) && id in t.running
    ensures var u := Done(t, id);
            && TasksInv(u) && id !in t.done && u.running == t.running - {id} && u.done == t.done + {id}
            && u.owner == t.owner - {id} && u.payloads == t.payloads && u.pending == t.pending && u.queue == t.queue
  {
    DoneKeeps(t, id);
  }

  lemma AddEffect(t: Tasks, id: Id, p: Payload)
    requires TasksInv(t) && id !in t.payloads
    ensures var u := Add(t, id, p);
            && TasksInv(u) && !Exists(t, id) && u.queue == t.queue + [(id, p)] && u.pending == t.pending + {id}
            && u.running == t.running && u.done == t.done && u.owner == t.owner && u.payloads == t.payloads[id := p]
  {
    AddKeeps(t, id, p);
  }

  // While the recovery loop runs, the failed worker's set still names tasks that have already
  // moved on; everything but the two owner maps is in order after each step.
  ghost predicate Moving(t: Tasks) { QueueIndexed(t) && Partitioned(t) && PayloadsAgree(t) }

  lemma RecoverOneKeeps(v: Tasks, id: Id)
    requires Moving(v) && id in v.running
    ensures Moving(RecoverOne(v, id))
    ensures RecoverOne(v, id).queue == v.queue + [(id, v.running[id])]
  {
    EnqueueKeeps(v, id, v.running[id]);
  }

  ghost predicate Recovered(t: Tasks, u: Tasks, ids: set<Id>) {
    && u.workerTasks == t.workerTasks && u.done == t.done && u.payloads == t.payloads
    && u.owner == t.owner - ids
    && u.running == t.running - ids
    && u.pending == t.pending + ids
  }

  lemma RecoveredStep(t: Tasks, v: Tasks, ids: set<Id>, id: Id)
    requires Recovered(t, v, ids) && id in v.running && id !in v.pending
    ensures Recovered(t, RecoverOne(v, id), ids + {id})
  {
    assert t.running - (ids + {id}) == (t.running - ids) - {id};
    assert t.owner - (ids + {id}) == (t.owner - ids) - {id};
  }

  lemma {:induction false} RecoverEachIs(t: Tasks, ids: seq<Id>)
    requires Moving(t) && Distinct(ids) && ToSet(ids) <= t.running.Keys
    ensures Moving(RecoverEach(t, ids)) && Recovered(t, RecoverEach(t, ids), ToSet(ids))
    ensures |RecoverEach(t, ids).queue| == |t.queue| + |ids|
    ensures RecoverEach(t, ids).queue[..|t.queue|] == t.queue
    ensures forall k :: 0 <= k < |ids| ==> RecoverEach(t, ids).queue[|t.queue| + k].0 == ids[k]
  {
    if ids != [] {
      var init, id := ids[..|ids| - 1], ids[|ids| - 1];
      assert id !in init;
      assert ids == init + [id];
      DistinctAppend(init, id);
      RecoverEachIs(t, init);
      var v := RecoverEach(t, init);
      assert id in v.running;
      RecoverOneKeeps(v, id);
      RecoveredStep(t, v, ToSet(init), id);
    }
  }

  lemma {:induction false} RecoverEachRunning(t: Tasks, ids: seq<Id>)
    ensures RecoverEach(t, ids).running == t.running - ToSet(ids)
  {
    if ids != [] {
      RecoverEachRunning(t, ids[..|ids| - 1]);
      assert ToSet(ids) == ToSet(ids[..|ids| - 1]) + {ids[|ids| - 1]};
      assert t.running - ToSet(ids) == (t.running - ToSet(ids[..|ids| - 1])) - {ids[|ids| - 1]};
    }
  }

  lemma RecoverEachStep(t: Tasks, ids: seq<Id>, n: nat)
    requires Distinct(ids) && ToSet(ids) <= t.running.Keys && n < |ids|
    ensures RecoverEach(t, ids[..n + 1]) == RecoverOne(RecoverEach(t, ids[..n]), ids[n])
    ensures ids[n] in RecoverEach(t, ids[..n]).running
    ensures RecoverEach(t, ids[..n]).running[ids[n]] == t.running[ids[n]]
    ensures WithPayloads(t.running, ids[..n + 1]) == WithPayloads(t.running, ids[..n]) + [(ids[n], t.running[ids[n]])]
  {
    hide RecoverOne, WithPayloads;
    assert ids[..n + 1][..n] == ids[..n];
    assert ids[n] in ToSet(ids) && ids[n] !in ids[..n];
    RecoverEachRunning(t, ids[..n]);
    WithPayloadsStep(t.running, ids, n);
  }

  lemma WithPayloadsStep(m: map<Id, Payload>, ids: seq<Id>, n: nat)
    requires n < |ids| && ids[n] in m
    ensures WithPayloads(m, ids[..n + 1]) == WithPayloads(m, ids[..n]) + [(ids[n], m[ids[n]])]
  {
  }

  lemma RecoverIs(t: Tasks, w: Worker)
    requires TasksInv(t)
    ensures TasksOf(t.workerTasks, w) <= t.running.Keys
    ensures Moving(Recover(t, w))
    ensures Recovered(t.(workerTasks := t.workerTasks - {w}), Recover(t, w), TasksOf(t.workerTasks, w))
  {
    if w in t.workerTasks {
      AscendingIs(t.workerTasks[w]);
      RecoverEachIs(t, Ascending(t.workerTasks[w]));
    }
  }

  lemma RecoverKeeps(t: Tasks, w: Worker)
    requires TasksInv(t)
    ensures TasksInv(Recover(t, w))
  {
    RecoverIs(t, w);
    OwnersWithout(t, w, Recover(t, w));
  }

  lemma OwnersWithout(t: Tasks, w: Worker, u: Tasks)
    requires OwnersInverse(t)
    requires u.workerTasks == t.workerTasks - {w}
    requires u.owner == t.owner - TasksOf(t.workerTasks, w)
    requires u.running == t.running - TasksOf(t.workerTasks, w)
    ensures OwnersInverse(u)
  {
    forall v, id | v in u.workerTasks && id in u.workerTasks[v] ensures id in u.owner && u.owner[id] == v {
      assert v in t.workerTasks && id in t.workerTasks[v] && t.owner[id] == v;
      assert id !in TasksOf(t.workerTasks, w);
    }
  }

  lemma UnassignKeeps(t: Tasks, w: Worker, id: Id)
    requires TasksInv(t) && w in t.workerTasks && id in t.workerTasks[w]
    ensures TasksInv(Unassign(t, w, id))
    ensures id in Unassign(t, w, id).running && id !in Unassign(t, w, id).owner
  {
    DropInverse(t.owner, t.workerTasks, id);
  }

  // ----- runs: any sequence of calls, whatever their arguments

  datatype Op =
    | OpAdd(id: Id, p: Payload) | OpAssign(w: Worker, id: Id) | OpClaim(w: Worker)
    | OpDone(id: Id) | OpFailed(id: Id) | OpRequeue(id: Id)
    | OpRecover(w: Worker) | OpUnassign(w: Worker, id: Id) | OpClear

  ghost function Apply(t: Tasks, op: Op): Tasks {
    match op
    case OpAdd(id, p) => if Exists(t, id) then t else Add(t, id, p)
    case OpAssign(w, id) =>
      if id in t.pending && id in QueueIds(t.queue) then Assign(t, w, id) else t
    case OpClaim(w) => if t.queue == [] then t else Claim(t, w)
    case OpDone(id) => if id in t.running then Done(t, id) else t
    case OpFailed(id) => if id in t.running then Failed(t, id) else t
    case OpRequeue(id) => Requeue(t, id)
    case OpRecover(w) => Recover(t, w)
    case OpUnassign(w, id) => if w in t.workerTasks && id in t.workerTasks[w] then Unassign(t, w, id) else t
    case OpClear => EMPTY
  }

  ghost function ApplyAll(t: Tasks, ops: seq<Op>): Tasks {
    if ops == [] then t else Apply(ApplyAll(t, ops[..|ops| - 1]), ops[|ops| - 1])
  }

  lemma ApplyKeeps(t: Tasks, op: Op)
    requires TasksInv(t)
    ensures TasksInv(Apply(t, op))
  {
    match op
    case OpAdd(id, p) => if !Exists(t, id) { AddKeeps(t, id, p); }
    case OpAssign(w, id) => if id in t.pending { AssignKeeps(t, w, id); }
    case OpClaim(w) => if t.queue != [] { ClaimKeeps(t, w); }
    case OpDone(id) => if id in t.running { DoneKeeps(t, id); }
    case OpFailed(id) => if id in t.running { FailedKeeps(t, id); }
    case OpRequeue(id) => RequeueKeeps(t, id);
    case OpRecover(w) => RecoverKeeps(t, w);
    case OpUnassign(w, id) => if w in t.workerTasks && id in t.workerTasks[w] { UnassignKeeps(t, w, id); }
    case OpClear =>
  }

  // Any sequence of calls on a fresh manager leaves the containers consistent.
  lemma {:induction false} RunsKeepInv(ops: seq<Op>)
    ensures TasksInv(ApplyAll(EMPTY, ops))
  {
    if ops != [] {
      RunsKeepInv(ops[..|ops| - 1]);
      ApplyKeeps(ApplyAll(EMPTY, ops[..|ops| - 1]), ops[|ops| - 1]);
    }
  }

  lemma TotalIsPayloads(t: Tasks)
    requires TasksInv(t)
    ensures Total(t) == |t.payloads| && |t.queue| == |t.pending|
  {
    CountIds(t.queue);
    assert |t.running| == |t.running.Keys| && |t.payloads| == |t.payloads.Keys|;
    assert |t.pending + t.running.Keys| == |t.pending| + |t.running.Keys|;
    assert |t.pending + t.running.Keys + t.done| == |t.pending| + |t.running.Keys| + |t.done|;
  }

  // The number of tracked tasks changes only when a new task is added or everything is cleared.
  lemma TotalChange(t: Tasks, op: Op)
    requires TasksInv(t)
    ensures Total(Apply(t, op)) ==
            (match op
             case OpAdd(id, _) => if id in t.payloads then Total(t) else Total(t) + 1
             case OpClear => 0
             case _ => Total(t))
  {
    ApplyKeeps(t, op);
    TotalIsPayloads(t);
    TotalIsPayloads(Apply(t, op));
    PayloadsChange(t, op);
  }

  lemma PayloadsChange(t: Tasks, op: Op)
    requires TasksInv(t)
    ensures Apply(t, op).payloads ==
            (match op
             case OpAdd(id, p) => if Exists(t, id) then t.payloads else t.payloads[id := p]
             case OpClear => map[]
             case _ => t.payloads)
  {
    if op.OpRecover? { RecoverIs(t, op.w); }
  }

  // A run that never removes a single assignment leaves no running task without an owner.
  lemma {:induction false} OwnersCoverRunning(ops: seq<Op>)
    requires forall k :: 0 <= k < |ops| ==> !ops[k].OpUnassign?
    ensures ApplyAll(EMPTY, ops).owner.Keys == ApplyAll(EMPTY, ops).running.Keys
  {
    if ops != [] {
      var before := ApplyAll(EMPTY, ops[..|ops| - 1]);
      OwnersCoverRunning(ops[..|ops| - 1]);
      RunsKeepInv(ops[..|ops| - 1]);
      OwnerStep(before, ops[|ops| - 1]);
    }
  }

  lemma OwnerStep(t: Tasks, op: Op)
    requires TasksInv(t) && !op.OpUnassign? && t.owner.Keys == t.running.Keys
    ensures Apply(t, op).owner.Keys == Apply(t, op).running.Keys
  {
    hide PayloadsAgree, Inverse, UniqueIds, Without, Find;
    if op.OpAssign? && op.id in t.pending { AssignKeeps(t, op.w, op.id); }
    if op.OpRecover? && op.w in t.workerTasks { RecoverIs(t, op.w); }
  }

  // A claimed task whose worker fails at once goes to the back of the queue and nothing else moves.
  lemma ClaimThenFail(t: Tasks, w: Worker)
    requires TasksInv(t) && t.queue != []
    ensures var (id, p) := t.queue[0];
            var u := Failed(Claim(t, w), id);
            && u.queue == t.queue[1..] + [(id, p)]
            && u.running == t.running && u.done == t.done && u.pending == t.pending
            && u.owner == t.owner && u.workerTasks == t.workerTasks && u.payloads == t.payloads
  {
    hide UniqueIds;
    var (id, p) := t.queue[0];
    var c := Claim(t, w);
    assert id !in t.owner;
    assert TasksOf(c.workerTasks, w) - {id} == TasksOf(t.workerTasks, w);
    var u := Failed(c, id);
    assert u.running == t.running;
    assert u.owner == t.owner;
    assert u.workerTasks == t.workerTasks;
  }

  // What the scan for one task has established: kept entries first, the unread rest after them.
  ghost predicate Scanned(q: seq<(Id, Payload)>, id: Id, found: bool,
                          kept: seq<(Id, Payload)>, rest: seq<(Id, Payload)>)
    requires id in QueueIds(q)
  {
    if found then kept + rest == Without(q, id)
    else id in QueueIds(rest) && kept + Without(rest, id) == Without(q, id) && Find(rest, id) == Find(q, id)
  }

  lemma ScanHit(q: seq<(Id, Payload)>, id: Id, kept: seq<(Id, Payload)>, rest: seq<(Id, Payload)>)
    requires id in QueueIds(q) && Scanned(q, id, false, kept, rest) && rest != [] && rest[0].0 == id
    ensures Scanned(q, id, true, kept, rest[1..]) && rest[0].1 == Find(q, id)
  {
  }

  lemma MoveHead(kept: seq<(Id, Payload)>, e: (Id, Payload), tail: seq<(Id, Payload)>)
    ensures kept + ([e] + tail) == (kept + [e]) + tail
  {
  }

  lemma ScanKept(q: seq<(Id, Payload)>, id: Id, kept: seq<(Id, Payload)>, rest: seq<(Id, Payload)>)
    requires id in QueueIds(q) && Scanned(q, id, true, kept, rest) && rest != []
    ensures Scanned(q, id, true, kept + [rest[0]], rest[1..])
  {
    hide QueueIds, Without, Find;
    assert rest == [rest[0]] + rest[1..];
    MoveHead(kept, rest[0], rest[1..]);
  }

  lemma ScanMiss(q: seq<(Id, Payload)>, id: Id, kept: seq<(Id, Payload)>, rest: seq<(Id, Payload)>)
    requires id in QueueIds(q) && Scanned(q, id, false, kept, rest) && rest[0].0 != id
    ensures Scanned(q, id, false, kept + [rest[0]], rest[1..])
  {
    WithoutHead(rest, id);
    hide Without;
    MoveHead(kept, rest[0], Without(rest[1..], id));
  }

  lemma WithoutHead(q: seq<(Id, Payload)>, id: Id)
    requires q != [] && q[0].0 != id
    ensures Without(q, id) == [q[0]] + Without(q[1..], id)
  {
  }

  function WithPayloads(m: map<Id, Payload>, ids: seq<Id>): seq<(Id, Payload)> {
    seq(|ids|, k requires 0 <= k < |ids| => (ids[k], Lookup(m, ids[k], [])))
  }

  // ----- the object itself

  class TaskStateManager {
    var fPending: seq<(Id, Payload)>
    var fPendingIds: set<Id>
    var fRunning: map<Id, Payload>
    var fDone: set<Id>
    var fWorkerToTasks: map<Worker, set<Id>>
    var fTaskToWorker: map<Id, Worker>
    var fTaskPayloads: map<Id, Payload>

    ghost function View(): Tasks
      reads this
    {
      Tasks(fPending, fPendingIds, fRunning, fDone, fWorkerToTasks, fTaskToWorker, fTaskPayloads)
    }

    ghost predicate Valid()
      reads this
    {
      TasksInv(View())
    }

    constructor ()
      ensures Valid() && View() == EMPTY
    {
      fPending, fPendingIds, fRunning, fDone := [], {}, map[], {};
      fWorkerToTasks, fTaskToWorker, fTaskPayloads := map[], map[], map[];
    }

    method EnqueuePending(id: Id, payload: Payload)
      modifies this`fPending, this`fPendingIds
      ensures View() == Enqueue(old(View()), id, payload)
    {
      if id !in fPendingIds {
        fPendingIds := fPendingIds + {id};
        fPending := fPending + [(id, payload)];
      }
    }

    // Returns false where the source throws because the id is already known.
    method AddPending(id: Id, payload: Payload) returns (added: bool)
      requires Valid()
      modifies this
      ensures Valid()
      ensures added <==> !Exists(old(View()), id)
      ensures View() == if added then Add(old(View()), id, payload) else old(View())
    {
      if id in fPendingIds || id in fRunning || id in fDone || id in fTaskPayloads {
        return false;
      }
      ghost var before := View();
      AddKeeps(before, id, payload);
      EnqueuePending(id, payload);
      fTaskPayloads := fTaskPayloads[id := payload];
      assert View() == Add(before, id, payload);
      return true;
    }

    method Start(worker: Worker, id: Id, payload: Payload)
      modifies this`fRunning, this`fWorkerToTasks, this`fTaskToWorker
      ensures View() == Own(old(View()).(running := old(fRunning)[id := payload]), worker, id)
    {
      fRunning := fRunning[id := payload];
      fWorkerToTasks := fWorkerToTasks[worker := TasksOf(fWorkerToTasks, worker) + {id}];
      fTaskToWorker := fTaskToWorker[id := worker];
    }

    // Rebuilds the queue without the task and starts it on the worker.
    method MovePending(worker: Worker, id: Id) returns (found: bool)
      requires id in QueueIds(fPending)
      modifies this
      ensures found && View() == Assign(old(View()), worker, id)
    {
      ghost var before, target := View(), Assign(View(), worker, id);
      var tempQueue := [];
      assert tempQueue + Without(fPending, id) == Without(fPending, id);
      found := false;
      while fPending != []
        invariant View() == (if found then target else before).(queue := fPending)
        invariant Scanned(before.queue, id, found, tempQueue, fPending)
        decreases |fPending|
      {
        ghost var rest := fPending;
        var (taskId, payload) := fPending[0];
        fPending := fPending[1..];
        if taskId == id && !found {
          ScanHit(before.queue, id, tempQueue, rest);
          found := true;
          Start(worker, id, payload);
          fPendingIds := fPendingIds - {id};
        } else {
          if found {
            ScanKept(before.queue, id, tempQueue, rest);
          } else {
            ScanMiss(before.queue, id, tempQueue, rest);
          }
          tempQueue := tempQueue + [(taskId, payload)];
        }
      }
      assert tempQueue + fPending == tempQueue;
      fPending := tempQueue;
    }

    method AssignToWorker(worker: Worker, id: Id) returns (found: bool)
      requires Valid()
      modifies this
      ensures Valid()
      ensures found <==> id in old(fPendingIds)
      ensures View() == if found then Assign(old(View()), worker, id) else old(View())
    {
      if fPending == [] || id !in fPendingIds {
        return false;
      }
      AssignKeeps(View(), worker, id);
      found := MovePending(worker, id);
    }

    method ClaimNextPendingForWorker(worker: Worker) returns (claimed: bool, id: Id, payload: Payload)
      requires Valid()
      modifies this
      ensures Valid()
      ensures claimed <==> old(fPending) != []
      ensures claimed ==> (id, payload) == old(fPending)[0] && View() == Claim(old(View()), worker)
      ensures !claimed ==> View() == old(View())
    {
      if fPending == [] {
        return false, 0, [];
      }
      ClaimKeeps(View(), worker);
      id, payload := fPending[0].0, fPending[0].1;
      fPending := fPending[1..];
      fPendingIds := fPendingIds - {id};
      Start(worker, id, payload);
      claimed := true;
    }

    method Release(id: Id)
      modifies this`fWorkerToTasks, this`fTaskToWorker
      ensures View() == Disown(old(View()), id)
    {
      if id in fTaskToWorker {
        var worker := fTaskToWorker[id];
        fWorkerToTasks := fWorkerToTasks[worker := TasksOf(fWorkerToTasks, worker) - {id}];
        if fWorkerToTasks[worker] == {} {
          fWorkerToTasks := fWorkerToTasks - {worker};
        }
        fTaskToWorker := fTaskToWorker - {id};
      }
    }

    method MarkDone(id: Id) returns (marked: bool)
      requires Valid()
      modifies this
      ensures Valid()
      ensures marked <==> id in old(fRunning)
      ensures View() == if marked then Done(old(View()), id) else old(View())
    {
      if id !in fRunning {
        return false;
      }
      DoneKeeps(View(), id);
      fDone := fDone + {id};
      fRunning := fRunning - {id};
      Release(id);
      return true;
    }

    method MarkFailed(id: Id) returns (marked: bool)
      requires Valid()
      modifies this
      ensures Valid()
      ensures marked <==> id in old(fRunning)
      ensures View() == if marked then Failed(old(View()), id) else old(View())
    {
      if id !in fRunning {
        return false;
      }
      FailedKeeps(View(), id);
      var payload := fRunning[id];
      fRunning := fRunning - {id};
      EnqueuePending(id, payload);
      Release(id);
      return true;
    }

    method RequeueTask(id: Id) returns (requeued: bool)
      requires Valid()
      modifies this
      ensures Valid()
      ensures requeued <==> CanRequeue(old(View()), id)
      ensures View() == Requeue(old(View()), id)
    {
      RequeueKeeps(View(), id);
      if id in fRunning {
        var payload := fRunning[id];
        fRunning := fRunning - {id};
        EnqueuePending(id, payload);
        Release(id);
        return true;
      }
      if id in fDone {
        if id !in fTaskPayloads {
          return false;
        }
        fDone := fDone - {id};
        EnqueuePending(id, fTaskPayloads[id]);
        return true;
      }
      return false;
    }

    method GetWorkerTasks(worker: Worker) returns (tasks: set<Id>)
      requires Valid()
      ensures forall id :: id in tasks <==> id in fTaskToWorker && fTaskToWorker[id] == worker
    {
      tasks := TasksOf(fWorkerToTasks, worker);
    }

    method GetNextPending() returns (id: Id, payload: Payload)
      ensures (id, payload) == if fPending == [] then (0, []) else fPending[0]
    {
      if fPending == [] {
        return 0, [];
      }
      return fPending[0].0, fPending[0].1;
    }

    method HasPending() returns (r: bool)
      requires Valid()
      ensures r <==> fPendingIds != {}
    {
      r := fPending != [];
    }

    method RecoverTask(id: Id) returns (moved: Option<(Id, Payload)>)
      modifies this
      ensures View() == RecoverOne(old(View()), id)
      ensures moved == if id in old(fRunning) then Some((id, old(fRunning)[id])) else None
    {
      moved := None;
      if id in fRunning {
        var payload := fRunning[id];
        moved := Some((id, payload));
        EnqueuePending(id, payload);
        fRunning := fRunning - {id};
      }
      fTaskToWorker := fTaskToWorker - {id};
    }

    // Moves a set of running tasks back to the queue, in increasing id order.
    method RecoverTasks(ids: set<Id>) returns (recovered: seq<(Id, Payload)>)
      requires ids <= fRunning.Keys
      modifies this
      ensures View() == RecoverEach(old(View()), Ascending(ids))
      ensures recovered == WithPayloads(old(fRunning), Ascending(ids))
    {
      hide RecoverOne;
      recovered := [];
      ghost var before := View();
      ghost var order := Ascending(ids);
      AscendingIs(ids);
      ghost var n := 0;
      var rest := ids;
      while rest != {}
        invariant n <= |order| && Ascending(rest) == order[n..]
        invariant View() == RecoverEach(before, order[..n])
        invariant recovered == WithPayloads(before.running, order[..n])
        decreases |rest|
      {
        LeastExists(rest);
        var id :| id in rest && forall k :: k in rest ==> id <= k;
        AscendingStep(order, n, rest, id);
        RecoverEachStep(before, order, n);
        var moved := RecoverTask(id);
        if moved.Some? {
          recovered := recovered + [moved.value];
        }
        rest := rest - {id};
        n := n + 1;
      }
      assert order[..n] == order;
    }

    method RecoverWorkerTasks(worker: Worker) returns (recovered: seq<(Id, Payload)>)
      requires Valid()
      modifies this
      ensures Valid()
      ensures View() == Recover(old(View()), worker)
      ensures TasksOf(old(fWorkerToTasks), worker) <= old(fRunning).Keys
      ensures recovered == WithPayloads(old(fRunning), Ascending(TasksOf(old(fWorkerToTasks), worker)))
    {
      if worker !in fWorkerToTasks {
        return [];
      }
      RecoverKeeps(View(), worker);
      RecoverIs(View(), worker);
      recovered := RecoverTasks(fWorkerToTasks[worker]);
      fWorkerToTasks := fWorkerToTasks - {worker};
    }

    method RemoveTaskFromWorker(worker: Worker, id: Id) returns (removed: bool)
      requires Valid()
      modifies this
      ensures Valid()
      ensures removed <==> id in old(fTaskToWorker) && old(fTaskToWorker)[id] == worker
      ensures View() == if removed then Unassign(old(View()), worker, id) else old(View())
    {
      hide TasksInv;
      OwnerIff(View(), worker, id);
      if worker !in fWorkerToTasks || id !in fWorkerToTasks[worker] {
        return false;
      }
      UnassignKeeps(View(), worker, id);
      fWorkerToTasks := fWorkerToTasks[worker := fWorkerToTasks[worker] - {id}];
      if fWorkerToTasks[worker] == {} {
        fWorkerToTasks := fWorkerToTasks - {worker};
      }
      fTaskToWorker := fTaskToWorker - {id};
      assert View() == Unassign(old(View()), worker, id);
      return true;
    }

    method GetTaskWorker(id: Id) returns (worker: Worker)
      ensures worker == OwnerName(View(), id)
    {
      worker := if id in fTaskToWorker then fTaskToWorker[id] else Worker("");
    }

    method IsDone(id: Id) returns (r: bool)
      requires Valid()
      ensures r <==> id in fDone
      ensures r <==> id in fTaskPayloads && id !in fPendingIds && id !in fRunning
    {
      r := id in fDone;
    }

    method TotalCount() returns (n: nat)
      requires Valid()
      ensures n == |fTaskPayloads|
    {
      TotalIsPayloads(View());
      n := |fPending| + |fRunning| + |fDone|;
    }

    method Clear()
      modifies this
      ensures Valid() && View() == EMPTY
    {
      fPending, fPendingIds, fRunning, fDone := [], {}, map[], {};
      fWorkerToTasks, fTaskToWorker, fTaskPayloads := map[], map[], map[];
    }
  }
}

// One turn of the main loop as a function of what its surroundings do in it: which workers have fallen
// silent, which messages the socket takes, and what it delivers.
module MainLoop {
  import opened Collections
  import opened TaskState
  import opened Odometer
  import opened Supervisor
  import opened SupervisorInvariant
  import opened SupervisorSteps
  import opened SupervisorDispatch
  import opened SupervisorRuns
  import opened SupervisorProgress
  import opened Flight
  import opened Completion

  // One message from the socket, or none: then the clock, the child processes and the user are looked at.
  datatype Incoming =
    | Silence(inactive: seq<Worker>, exited: seq<Worker>, broken: bool)
    | AckFrom(w: Worker, id: Id)
    | AckBFrom(w: Worker, ids: seq<Id>)
    | ReadyFrom(w: Worker, i: nat)
    | InitAckFrom(w: Worker)
    | ShutdownOf(w: Worker)
    | ErrOrMalformed
    | Unconcerning          // BOOTSTRAP, DONE, the notice of an ordered stop

  // One turn of the main loop; sends are the outcomes of the socket in its dispatch loop.
  datatype Turn = Turn(interrupted: bool, inactive: seq<Worker>, graceOver: bool, sends: seq<bool>, incoming: Incoming)

  // The pass left the loop: no worker may take a message, or the socket did not take it.
  predicate Leaves(job: Job, s: Sup, sent: bool)
    requires JobOk(job) && s.roster != []
  {
    !Pick(job, s).found || (!sent && PassBatch(job, s) != [])
  }

  ghost function PassAll(job: Job, s: Sup, sends: seq<bool>): Sup
    requires JobOk(job)
    decreases |sends|
  {
    if sends == [] || !CanDispatch(s) then s
    else
      var u := Dispatch(job, s, sends[0]);
      if u.error || Leaves(job, s, sends[0]) then u else PassAll(job, u, sends[1..])
  }

  // Workers given up one after the other until an error; marked ones may be skipped.
  ghost function LoseAll(s: Sup, ws: seq<Worker>, skipMarked: bool): Sup
    decreases |ws|
  {
    if ws == [] || s.error then s
    else if skipMarked && ws[0] in s.failed then LoseAll(s, ws[1..], skipMarked)
    else LoseAll(Lost(s, ws[0], false), ws[1..], skipMarked)
  }

  ghost function Detected(job: Job, s: Sup, inactive: seq<Worker>): Sup {
    if job.tcp then LoseAll(s, inactive, true) else s
  }

  ghost function Quiet(job: Job, s: Sup, inactive: seq<Worker>, exited: seq<Worker>, broken: bool): Sup {
    var u := LoseAll(Detected(job, s, inactive), exited, false);
    if broken then u.(error := true) else u
  }

  // What a message does to the supervisor.
  ghost function Hear(job: Job, s: Sup, m: Incoming): Sup {
    match m
    case Silence(inactive, exited, broken) => Quiet(job, s, inactive, exited, broken)
    case AckFrom(w, id) => Ack(s, w, id)
    case AckBFrom(w, ids) => AckB(s, w, ids)
    case ReadyFrom(w, i) =>
      if !job.tcp then s.(error := true) else if w == Identity(i) then Ready(s, w, i) else s
    case InitAckFrom(w) => if job.tcp then InitAck(s, w) else s
    case ShutdownOf(w) => Lost(s, w, job.tcp)
    case ErrOrMalformed => s.(error := true)
    case Unconcerning => s
  }

  // The checks before anything is sent: an interrupt, silent workers, and nobody left.
  ghost function Checked(job: Job, s: Sup, t: Turn): Sup {
    if t.interrupted then s.(error := true)
    else
      var u := Detected(job, s, t.inactive);
      if u.roster == [] && (!job.tcp || t.graceOver) then u.(error := true) else u
  }

  ghost function SentOut(job: Job, s: Sup, sends: seq<bool>): Sup
    requires JobOk(job)
  {
    var u := PassAll(job, s, sends);
    if job.tcp && !u.error then Cleanup(u) else u
  }

  ghost function TurnStep(job: Job, s: Sup, t: Turn): Sup
    requires JobOk(job)
  {
    var u := Checked(job, s, t);
    if u.error then u
    else
      var v := SentOut(job, u, t.sends);
      if v.error || (v.outstanding == 0 && v.roster == [] && !job.tcp) || LoopEnds(v) then v
      else Hear(job, v, t.incoming)
  }

  predicate Going(s: Sup) { !s.error && !LoopEnds(s) }

  // The main loop over the given turns.
  ghost function Play(job: Job, s: Sup, turns: seq<Turn>): Sup
    requires JobOk(job)
    decreases |turns|
  {
    if turns == [] || !Going(s) then s else Play(job, TurnStep(job, s, turns[0]), turns[1..])
  }

  // ----- turns are runs of the step machine

  ghost predicate Reaches(job: Job, s: Sup, es: seq<Event>, u: Sup) {
    JobOk(job) && Legal(job, s, es) && Run(job, s, es) == u
  }

  lemma ReachesNow(job: Job, s: Sup)
    requires JobOk(job)
    ensures Reaches(job, s, [], s)
  {
    hide JobOk;
  }

  lemma {:induction false} ReachesChain(job: Job, s: Sup, es: seq<Event>, u: Sup, fs: seq<Event>, v: Sup)
    requires Reaches(job, s, es, u) && Reaches(job, u, fs, v)
    ensures Reaches(job, s, es + fs, v)
    decreases |es|
  {
    hide Step, Enabled, JobOk;
    if es == [] {
      assert es + fs == fs;
    } else {
      assert (es + fs)[0] == es[0] && (es + fs)[1..] == es[1..] + fs;
      ReachesChain(job, Step(job, s, es[0]), es[1..], u, fs, v);
    }
  }

  lemma ReachesOne(job: Job, s: Sup, e: Event)
    requires JobOk(job) && Enabled(job, s, e)
    ensures Reaches(job, s, [e], Step(job, s, e))
  {
    hide Step, Enabled, JobOk;
    var (es, u) := ([e], Step(job, s, e));
    assert es[0] == e && es[1..] == [];
    assert Legal(job, u, es[1..]);
    assert Legal(job, s, es);
    assert Run(job, s, es) == Run(job, u, es[1..]);
  }

  lemma {:induction false} PassAllReaches(job: Job, s: Sup, sends: seq<bool>) returns (es: seq<Event>)
    requires JobOk(job)
    ensures Reaches(job, s, es, PassAll(job, s, sends))
    decreases |sends|
  {
    hide Reaches, Dispatch, JobOk, Leaves;
    if sends == [] || !CanDispatch(s) {
      ReachesNow(job, s);
      return [];
    }
    var u := Dispatch(job, s, sends[0]);
    ReachesOne(job, s, Pass(sends[0]));
    es := [Pass(sends[0])];
    if !(u.error || Leaves(job, s, sends[0])) {
      var more := PassAllReaches(job, u, sends[1..]);
      ReachesChain(job, s, es, u, more, PassAll(job, u, sends[1..]));
      es := es + more;
    }
  }

  lemma {:induction false} LoseAllReaches(job: Job, s: Sup, ws: seq<Worker>, skipMarked: bool) returns (es: seq<Event>)
    requires JobOk(job)
    ensures Reaches(job, s, es, LoseAll(s, ws, skipMarked))
    decreases |ws|
  {
    hide Reaches, Lost, JobOk;
    if ws == [] || s.error {
      ReachesNow(job, s);
      es := [];
    } else if skipMarked && ws[0] in s.failed {
      es := LoseAllReaches(job, s, ws[1..], skipMarked);
    } else {
      ReachesOne(job, s, Lose(ws[0], false));
      var more := LoseAllReaches(job, Lost(s, ws[0], false), ws[1..], skipMarked);
      ReachesChain(job, s, [Lose(ws[0], false)], Lost(s, ws[0], false), more, LoseAll(s, ws, skipMarked));
      es := [Lose(ws[0], false)] + more;
    }
  }

  lemma DetectedReaches(job: Job, s: Sup, inactive: seq<Worker>) returns (es: seq<Event>)
    requires JobOk(job)
    ensures Reaches(job, s, es, Detected(job, s, inactive))
  {
    hide Reaches, LoseAll, JobOk;
    if job.tcp {
      es := LoseAllReaches(job, s, inactive, true);
    } else {
      ReachesNow(job, s);
      es := [];
    }
  }

  // An abort, unless the run has ended with an error before.
  lemma AbortReaches(job: Job, s: Sup) returns (es: seq<Event>)
    requires JobOk(job)
    ensures Reaches(job, s, es, s.(error := true))
  {
    hide Reaches, JobOk;
    if s.error {
      ReachesNow(job, s);
      assert s.(error := true) == s;
      es := [];
    } else {
      ReachesOne(job, s, Abort);
      es := [Abort];
    }
  }

  lemma QuietReaches(job: Job, s: Sup, inactive: seq<Worker>, exited: seq<Worker>, broken: bool) returns (es: seq<Event>)
    requires JobOk(job)
    ensures Reaches(job, s, es, Quiet(job, s, inactive, exited, broken))
  {
    hide Reaches, LoseAll, Detected, JobOk;
    var u := Detected(job, s, inactive);
    var v := LoseAll(u, exited, false);
    es := DetectedReaches(job, s, inactive);
    var more := LoseAllReaches(job, u, exited, false);
    ReachesChain(job, s, es, u, more, v);
    es := es + more;
    if broken {
      more := AbortReaches(job, v);
      ReachesChain(job, s, es, v, more, v.(error := true));
      es := es + more;
    }
  }

  lemma HearReaches(job: Job, s: Sup, m: Incoming) returns (es: seq<Event>)
    requires JobOk(job) && !s.error
    ensures Reaches(job, s, es, Hear(job, s, m))
  {
    hide Reaches, Quiet, Ack, AckB, Lost, Ready, InitAck, Identity, JobOk;
    ReachesNow(job, s);
    es := [];
    match m
    case Silence(inactive, exited, broken) => es := QuietReaches(job, s, inactive, exited, broken);
    case AckFrom(w, id) =>
      ReachesOne(job, s, GotAck(w, id));
      es := [GotAck(w, id)];
    case AckBFrom(w, ids) =>
      ReachesOne(job, s, GotAckB(w, ids));
      es := [GotAckB(w, ids)];
    case ReadyFrom(w, i) =>
      if !job.tcp {
        es := AbortReaches(job, s);
      } else if w == Identity(i) {
        ReachesOne(job, s, GotReady(w, i));
        es := [GotReady(w, i)];
      }
    case InitAckFrom(w) =>
      if job.tcp {
        ReachesOne(job, s, GotInitAck(w));
        es := [GotInitAck(w)];
      }
    case ShutdownOf(w) =>
      ReachesOne(job, s, Lose(w, job.tcp));
      es := [Lose(w, job.tcp)];
    case ErrOrMalformed => es := AbortReaches(job, s);
    case Unconcerning =>
  }

  lemma SentOutReaches(job: Job, s: Sup, sends: seq<bool>) returns (es: seq<Event>)
    requires JobOk(job)
    ensures Reaches(job, s, es, SentOut(job, s, sends))
  {
    hide Reaches, PassAll, Cleanup, JobOk;
    var u := PassAll(job, s, sends);
    es := PassAllReaches(job, s, sends);
    if job.tcp && !u.error {
      ReachesOne(job, u, Sweep);
      ReachesChain(job, s, es, u, [Sweep], Cleanup(u));
      es := es + [Sweep];
    }
  }

  lemma TurnReaches(job: Job, s: Sup, t: Turn) returns (es: seq<Event>)
    requires JobOk(job)
    ensures Reaches(job, s, es, TurnStep(job, s, t))
  {
    hide Reaches, Detected, SentOut, Hear, LoopEnds, JobOk;
    var u := Checked(job, s, t);
    if t.interrupted {
      es := AbortReaches(job, s);
      return;
    }
    es := DetectedReaches(job, s, t.inactive);
    var d := Detected(job, s, t.inactive);
    if d.roster == [] && (!job.tcp || t.graceOver) {
      var more := AbortReaches(job, d);
      ReachesChain(job, s, es, d, more, u);
      es := es + more;
    }
    if !u.error {
      var v := SentOut(job, u, t.sends);
      var more := SentOutReaches(job, u, t.sends);
      ReachesChain(job, s, es, u, more, v);
      es := es + more;
      if !(v.error || (v.outstanding == 0 && v.roster == [] && !job.tcp) || LoopEnds(v)) {
        more := HearReaches(job, v, t.incoming);
        ReachesChain(job, s, es, v, more, Hear(job, v, t.incoming));
        es := es + more;
      }
    }
  }

  // Whatever the turns bring, the main loop is a run of the step machine.
  lemma {:induction false} PlayReaches(job: Job, s: Sup, turns: seq<Turn>) returns (es: seq<Event>)
    requires JobOk(job)
    ensures Reaches(job, s, es, Play(job, s, turns))
    decreases |turns|
  {
    hide Reaches, TurnStep, Going, JobOk;
    if turns == [] || !Going(s) {
      ReachesNow(job, s);
      es := [];
    } else {
      es := TurnReaches(job, s, turns[0]);
      var more := PlayReaches(job, TurnStep(job, s, turns[0]), turns[1..]);
      ReachesChain(job, s, es, TurnStep(job, s, turns[0]), more, Play(job, s, turns));
      es := es + more;
    }
  }
}

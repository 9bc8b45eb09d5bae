// The admission protocol as a state machine over many threads. Every lock region, and every
// outcome of the closures run between them, is one atomic event.

module AdmissionProtocol {
  import opened SizeT
  import opened AdmissionQueue

  type Tid = nat
  type Sub = nat

  // The life of one submission: outside the queue with a reserved sequence, accepted, its token
  // returned, its sequence given back, completed before its dispatch threw, or its call has thrown.
  datatype Stage = Held | Accepted | Returned | Released | SelfCompleted | Threw(selfCompleted: bool)

  // History of one submission; `stamp` is its place in publication order.
  datatype Submission = Submission(sequence: nat, stage: Stage, rollbacks: nat, stamp: nat)

  // Who called pump_admission; `failed` is the submitter's recorded dispatch failure.
  datatype Call = Submitter(sub: Sub, sequence: nat, failed: bool) | Completer

  // Where a thread is inside pump_admission.
  datatype Phase =
    | Entering
    | Scanning
    | Dispatching(target: nat)
    | RolledBack
    | Completing(target: nat, failure: Failure)
    | Nested

  // Where a thread is inside a call.
  datatype Pc =
    | Preparing(sub: Sub)
    | Unwinding(sub: Sub)
    | Pumping(call: Call, phase: Phase)

  // The shared queue, the threads inside calls, and the history that the properties speak of.
  datatype World = World(
    q: Queue, threads: map<Tid, Pc>, table: map<Sub, Submission>, subs: nat,
    done: set<nat>, published: nat, log: seq<nat>, unavailable: bool)

  datatype Event =
    | ReserveBy(tid: Tid)
    | PrepareThrows(tid: Tid)
    | PublishBy(tid: Tid)
    | AbandonBy(tid: Tid)
    | EnterBy(tid: Tid)
    | PickBy(tid: Tid)
    | DispatchReturns(tid: Tid)
    | DispatchUnavailable(tid: Tid)
    | DispatchThrows(tid: Tid, failure: Failure)
    | CompleteFailed(tid: Tid)
    | EnterNested(tid: Tid)
    | CompleteBy(tid: Tid, sequence: nat, outcome: Option<Failure>)
    | CommitFor(sequence: nat, failure: Failure)
    | FailAfterCompletion(sequence: nat, failure: Failure)
    | Close

  // ---------------------------------------------------------------- events

  function Goto(w: World, tid: Tid, pc: Pc): World {
    w.(threads := w.threads[tid := pc])
  }

  function SetStage(w: World, sub: Sub, stage: Stage): World {
    if sub in w.table then w.(table := w.table[sub := w.table[sub].(stage := stage)]) else w
  }

  function CountRollback(w: World, sub: Sub): World {
    if sub in w.table then w.(table := w.table[sub := w.table[sub].(rollbacks := w.table[sub].rollbacks + 1)]) else w
  }

  // The call returns: a submission yields its token or rethrows its dispatch failure.
  function Leave(w: World, tid: Tid, call: Call): World {
    var w1 := w.(threads := w.threads - {tid});
    if call.Completer? then w1
    else if !call.failed then SetStage(w1, call.sub, Returned)
    else SetStage(w1, call.sub, Threw(call.sub in w.table && w.table[call.sub].stage.SelfCompleted?))
  }

  function DoReserve(w: World, tid: Tid): World {
    var (q, r) := Reserve(w.q);
    if !r.Reserved? then w
    else
      w.(q := q, threads := w.threads[tid := Preparing(w.subs)], subs := w.subs + 1,
         table := w.table[w.subs := Submission(r.sequence, Held, 0, 0)])
  }

  // Failures before publication run the rollback once; the sequence is then abandoned.
  function DoUnwind(w: World, tid: Tid, sub: Sub): World {
    Goto(CountRollback(w, sub), tid, Unwinding(sub))
  }

  function DoPublish(w: World, tid: Tid, sub: Sub): World
    requires sub in w.table
  {
    var record := w.table[sub];
    var (q, r) := Publish(w.q, record.sequence, sub);
    if !r.Published? then DoUnwind(w, tid, sub)
    else
      Goto(w, tid, Pumping(Submitter(sub, record.sequence, false), Entering))
        .(q := q, table := w.table[sub := record.(stage := Accepted, stamp := w.published)], published := w.published + 1)
  }

  function DoAbandonUnpublished(w: World, tid: Tid, sub: Sub): World
    requires sub in w.table
  {
    SetStage(w.(q := Abandon(w.q, w.table[sub].sequence), threads := w.threads - {tid}), sub, Threw(false))
  }

  function DoAbandonFailed(w: World, tid: Tid, call: Call): World
    requires call.Submitter?
  {
    SetStage(Goto(w, tid, Pumping(call.(failed := true), Scanning)).(q := Abandon(w.q, call.sequence)), call.sub, Released)
  }

  function DoEnter(w: World, tid: Tid, call: Call): World {
    var (q, entered) := EnterPump(w.q);
    if entered then Goto(w, tid, Pumping(call, Scanning)).(q := q) else Leave(w, tid, call)
  }

  function StampOf(w: World, s: nat): nat {
    if s in w.q.nodes && w.q.nodes[s].sub in w.table then w.table[w.q.nodes[s].sub].stamp else 0
  }

  function DoPick(w: World, tid: Tid, call: Call): World {
    var (q, r) := Pick(w.q);
    if r.None? then Leave(w, tid, call).(q := q, unavailable := false)
    else Goto(w, tid, Pumping(call, Dispatching(r.value))).(q := q, log := w.log + [StampOf(w, r.value)])
  }

  // A parked dispatch is not final: its entry leaves the log again.
  function DoUnavailable(w: World, tid: Tid, call: Call, t: nat): World {
    var log := if t in w.q.nodes && w.log != [] then w.log[..|w.log| - 1] else w.log;
    Leave(w, tid, call).(q := Park(w.q, t), log := log, unavailable := true)
  }

  predicate Preaccepts(call: Call, t: nat) {
    call.Submitter? && call.sequence == t
  }

  function TakeRollback(w: World, t: nat): World {
    if t in w.q.nodes && w.q.nodes[t].rollback then CountRollback(w, w.q.nodes[t].sub) else w
  }

  function DoThrow(w: World, tid: Tid, call: Call, t: nat, failure: Failure): World {
    var pre := Preaccepts(call, t);
    var w1 := TakeRollback(w, t).(q := FailDispatch(w.q, t, pre));
    if !pre then Goto(w1, tid, Pumping(call, Completing(t, failure)))
    else if t in w.q.nodes then
      Goto(if call.failed then w1 else SetStage(w1, call.sub, Held), tid, Pumping(call, RolledBack))
    else
      Goto(if call.failed then w1 else SetStage(w1, call.sub, SelfCompleted), tid, Pumping(call.(failed := true), Scanning))
  }

  function DoCompleteFailed(w: World, tid: Tid, call: Call, t: nat, failure: Failure): World {
    var (q, r) := Complete(w.q, t, Some(failure));
    if !r.Completed? then Goto(w, tid, Pumping(call, Scanning))
    else Goto(w, tid, Pumping(call, if r.shouldPump then Nested else Scanning)).(q := q, done := w.done + {t})
  }

  function DoComplete(w: World, tid: Tid, s: nat, outcome: Option<Failure>): World {
    var (q, r) := Complete(w.q, s, outcome);
    if !r.Completed? then w
    else
      var w1 := w.(q := q, done := w.done + {s});
      if r.shouldPump then Goto(w1, tid, Pumping(Completer, Entering)) else w1
  }

  // The thread is inside a pump call, in a phase that p describes.
  predicate In(w: World, tid: Tid, p: Phase -> bool) {
    tid in w.threads && w.threads[tid].Pumping? && p(w.threads[tid].phase)
  }

  predicate AtPrepare(w: World, tid: Tid) {
    tid in w.threads && w.threads[tid].Preparing? && w.threads[tid].sub in w.table
  }

  predicate AtUnwind(w: World, tid: Tid) {
    tid in w.threads && w.threads[tid].Unwinding? && w.threads[tid].sub in w.table
  }

  predicate AtDispatch(w: World, tid: Tid) {
    In(w, tid, (p: Phase) => p.Dispatching?)
  }

  // The successor of w under e; an event that is not enabled changes nothing.
  function Next(w: World, e: Event): World {
    match e
    case ReserveBy(tid) => if tid in w.threads then w else DoReserve(w, tid)
    case PrepareThrows(tid) => if AtPrepare(w, tid) then DoUnwind(w, tid, w.threads[tid].sub) else w
    case PublishBy(tid) => if AtPrepare(w, tid) then DoPublish(w, tid, w.threads[tid].sub) else w
    case AbandonBy(tid) =>
      if AtUnwind(w, tid) then DoAbandonUnpublished(w, tid, w.threads[tid].sub)
      else if In(w, tid, (p: Phase) => p.RolledBack?) && w.threads[tid].call.Submitter? then DoAbandonFailed(w, tid, w.threads[tid].call)
      else w
    case EnterBy(tid) => if In(w, tid, (p: Phase) => p.Entering?) then DoEnter(w, tid, w.threads[tid].call) else w
    case PickBy(tid) => if In(w, tid, (p: Phase) => p.Scanning?) then DoPick(w, tid, w.threads[tid].call) else w
    case DispatchReturns(tid) => if AtDispatch(w, tid) then Goto(w, tid, Pumping(w.threads[tid].call, Scanning)) else w
    case DispatchUnavailable(tid) =>
      if AtDispatch(w, tid) then DoUnavailable(w, tid, w.threads[tid].call, w.threads[tid].phase.target) else w
    case DispatchThrows(tid, failure) =>
      if AtDispatch(w, tid) then DoThrow(w, tid, w.threads[tid].call, w.threads[tid].phase.target, failure) else w
    case CompleteFailed(tid) =>
      if In(w, tid, (p: Phase) => p.Completing?)
      then DoCompleteFailed(w, tid, w.threads[tid].call, w.threads[tid].phase.target, w.threads[tid].phase.failure) else w
    case EnterNested(tid) =>
      if In(w, tid, (p: Phase) => p.Nested?) && !EnterPump(w.q).1 then Goto(w, tid, Pumping(w.threads[tid].call, Scanning)) else w
    case CompleteBy(tid, s, outcome) => if tid in w.threads then w else DoComplete(w, tid, s, outcome)
    case CommitFor(s, failure) => w.(q := CommitFailure(w.q, s, failure).0)
    case FailAfterCompletion(s, failure) => if s in w.done then w.(q := RecordPostCompletionFailure(w.q, s, failure)) else w
    case Close => w.(q := w.q.(closing := true))
  }

  function InitialWorld(maxInFlight: nat): World {
    World(Initial(maxInFlight), map[], map[], 0, {}, 0, [], false)
  }

  function Run(w: World, es: seq<Event>): World
    decreases |es|
  {
    if es == [] then w else Next(Run(w, es[..|es| - 1]), es[|es| - 1])
  }

  // A pump call that already gave its own sequence back treats the throw of another submission,
  // which was handed the same sequence, as its own.
  predicate Steals(w: World, e: Event) {
    && e.DispatchThrows? && AtDispatch(w, e.tid)
    && Preaccepts(w.threads[e.tid].call, w.threads[e.tid].phase.target)
    && w.threads[e.tid].call.failed
    && w.threads[e.tid].phase.target in w.q.nodes
  }
}

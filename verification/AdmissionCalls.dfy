// submit_prepared, complete and pump_admission as the source writes them, on the fields of the queue.
// A call that runs through without interruption is a run of the protocol.

module AdmissionCalls {
  import opened SizeT
  import opened AdmissionQueue
  import opened AdmissionProtocol
  import opened AdmissionInvariants
  import opened AdmissionSafety

  // What the closure of a node does when it is dispatched.
  datatype DispatchOutcome = Returns | Unavailable | Throws(failure: Failure)

  datatype SubmitOutcome = Refused | Token(sequence: nat) | Thrown

  // The thread takes step e.
  lemma Step(w: World, es: seq<Event>, e: Event)
    requires Inv(Run(w, es))
    ensures Run(w, es + [e]) == Next(Run(w, es), e) && Inv(Run(w, es + [e]))
  {
    hide Inv, Next;
    assert (es + [e])[..|es|] == es;
    StepPreserves(Run(w, es), e);
  }

  // Nodes that are not executing.
  function Waiting(q: Queue): int {
    |q.fifo| - q.credits
  }

  lemma ErasedWaiting(q: Queue, s: nat, q': Queue)
    requires QueueInv(q) && s in q.nodes && q.nodes[s].executing
    requires q'.nodes == q.nodes - {s} && q'.fifo == RemoveFirst(q.fifo, s) && q'.credits == Decrement(q.credits)
    ensures Waiting(q') == Waiting(q)
  {
    EraseAt(q, s, q') by { hide QueueInv, RemoveFirst; }
    assert q.fifo[PlaceOf(q, s)] == s;
    hide RemoveFirst;
  }

  // Where the pumping thread and the queue are after a throw of the dispatched node.
  lemma AfterThrow(v: World, tid: Tid, call: Call, s: nat, failure: Failure)
    requires Inv(v) && s in v.q.nodes && tid in v.threads && v.threads[tid] == Pumping(call, Dispatching(s))
    ensures var pre, v1 := Preaccepts(call, s), Next(v, DispatchThrows(tid, failure));
      && v1.q == FailDispatch(v.q, s, pre) && tid in v1.threads
      && v1.threads[tid] == Pumping(call, if pre then RolledBack else Completing(s, failure))
      && (pre ==> Waiting(v1.q) == Waiting(v.q))
      && (!pre ==> v1.q.fifo == v.q.fifo && v1.q.credits == v.q.credits && s in v1.q.nodes && v1.q.nodes[s].executing)
  {
    assert QueueInv(v.q) && TargetOk(v, v.threads[tid]);
    TargetExecutes(v, v.threads[tid]);
    hide Inv, QueueInv, RemoveFirst, TargetOk;
    if Preaccepts(call, s) { ErasedWaiting(v.q, s, FailDispatch(v.q, s, true)); }
  }

  lemma AfterAbandon(v: World, tid: Tid, call: Call)
    requires call.Submitter? && tid in v.threads && v.threads[tid] == Pumping(call, RolledBack)
    ensures var v1 := Next(v, AbandonBy(tid));
      && v1.q == Abandon(v.q, call.sequence) && tid in v1.threads && v1.threads[tid] == Pumping(call.(failed := true), Scanning)
      && Waiting(v1.q) == Waiting(v.q)
  {
  }

  lemma AfterCompletion(v: World, tid: Tid, call: Call, s: nat, failure: Failure)
    requires Inv(v) && s in v.q.nodes && v.q.nodes[s].executing
    requires tid in v.threads && v.threads[tid] == Pumping(call, Completing(s, failure))
    ensures var (q, r), v1 := Complete(v.q, s, Some(failure)), Next(v, CompleteFailed(tid));
      && r.Completed? && v1.q == q && tid in v1.threads && v1.threads[tid] == Pumping(call, if r.shouldPump then Nested else Scanning)
      && Waiting(v1.q) == Waiting(v.q)
  {
    assert QueueInv(v.q);
    hide Inv, RemoveFirst;
    ErasedWaiting(v.q, s, Complete(v.q, s, Some(failure)).0) by { hide QueueInv; }
  }

  lemma AfterNested(v: World, tid: Tid, call: Call)
    requires Inv(v) && tid in v.threads && v.threads[tid] == Pumping(call, Nested)
    ensures var v1 := Next(v, EnterNested(tid));
      EnterPump(v.q) == (v.q, false) && v1.q == v.q && tid in v1.threads && v1.threads[tid] == Pumping(call, Scanning)
  {
    NestedPumpReturns(v, tid);
    hide Inv;
  }

  // A throw of the dispatched node s: the submitter's own node is erased and its sequence given back,
  // another submission's rollback is taken and its sequence completed.
  method HandleThrow(ops: DeviceOps, call: Call, tid: Tid, s: nat, failure: Failure, ghost w: World, ghost es: seq<Event>)
    returns (preacceptance: bool, ghost fs: seq<Event>)
    requires Inv(Run(w, es)) && ops.State() == Run(w, es).q && s in Run(w, es).q.nodes
    requires tid in Run(w, es).threads && Run(w, es).threads[tid] == Pumping(call, Dispatching(s))
    modifies ops
    ensures Inv(Run(w, fs)) && ops.State() == Run(w, fs).q && tid in Run(w, fs).threads
    ensures preacceptance <==> Preaccepts(call, s)
    ensures Run(w, fs).threads[tid] == Pumping(if preacceptance then call.(failed := true) else call, Scanning)
    ensures Waiting(Run(w, fs).q) == Waiting(Run(w, es).q)
  {
    preacceptance := call.Submitter? && call.sequence == s;
    hide Inv, Next, Run, FailDispatch, Abandon, Complete, EnterPump, Waiting;
    AfterThrow(Run(w, es), tid, call, s, failure);
    Step(w, es, DispatchThrows(tid, failure));
    fs := es + [DispatchThrows(tid, failure)];
    var found, rollback := ops.TakeFailedNode(s, preacceptance);
    if preacceptance {
      AfterAbandon(Run(w, fs), tid, call);
      Step(w, fs, AbandonBy(tid));
      ops.AbandonSequence(s);
      fs := fs + [AbandonBy(tid)];
    } else {
      assert Waiting(Run(w, fs).q) == Waiting(Run(w, es).q) by { SameWaiting(Run(w, fs).q, Run(w, es).q); }
      AfterCompletion(Run(w, fs), tid, call, s, failure);
      Step(w, fs, CompleteFailed(tid));
      var r := ops.CompleteSequence(s, Some(failure));
      fs := fs + [CompleteFailed(tid)];
      if r.shouldPump {
        AfterNested(Run(w, fs), tid, call);
        Step(w, fs, EnterNested(tid));
        var entered := ops.BeginPump();
        fs := fs + [EnterNested(tid)];
      }
    }
  }

  lemma SameWaiting(q: Queue, q': Queue)
    requires q'.fifo == q.fifo && q'.credits == q.credits
    ensures Waiting(q) == Waiting(q')
  {
  }

  // ---------------------------------------------------------------- the pump

  // The call is over: its submission returned its token or threw.
  ghost predicate Over(v: World, call: Call) {
    call.Submitter? ==>
      && call.sub in v.table && v.table[call.sub].sequence == call.sequence
      && if call.failed then v.table[call.sub].stage.Threw? else v.table[call.sub].stage.Returned?
  }

  lemma LeaveIsOver(v: World, tid: Tid, v1: World)
    requires Inv(v) && tid in v.threads && v.threads[tid].Pumping? && v1.table == Leave(v, tid, v.threads[tid].call).table
    ensures Over(v1, v.threads[tid].call)
  {
    assert ThreadOk(v, v.threads[tid]);
    hide Inv;
  }

  lemma AfterEnter(v: World, tid: Tid, call: Call)
    requires Inv(v) && tid in v.threads && v.threads[tid] == Pumping(call, Entering)
    ensures var (q, entered), v1 := EnterPump(v.q), Next(v, EnterBy(tid));
      && v1.q == q
      && (entered ==> tid in v1.threads && v1.threads[tid] == Pumping(call, Scanning))
      && (!entered ==> tid !in v1.threads && Over(v1, call))
  {
    hide Inv, Over;
    if !EnterPump(v.q).1 { LeaveIsOver(v, tid, Next(v, EnterBy(tid))); }
  }

  lemma AfterPick(v: World, tid: Tid, call: Call)
    requires Inv(v) && tid in v.threads && v.threads[tid] == Pumping(call, Scanning)
    ensures var (q, r), v1 := Pick(v.q), Next(v, PickBy(tid));
      && v1.q == q
      && (r.Some? ==> tid in v1.threads && v1.threads[tid] == Pumping(call, Dispatching(r.value)) && r.value in q.nodes
                      && v1.table == v.table && 0 <= Waiting(v1.q) < Waiting(v.q))
      && (r.None? ==> tid !in v1.threads && Over(v1, call))
  {
    PickQueue(v.q);
    hide Inv, Pick, QueueInv, Over;
    if Pick(v.q).1.None? { LeaveIsOver(v, tid, Next(v, PickBy(tid))); }
  }

  lemma AfterPark(v: World, tid: Tid, call: Call, s: nat)
    requires Inv(v) && tid in v.threads && v.threads[tid] == Pumping(call, Dispatching(s))
    ensures var v1 := Next(v, DispatchUnavailable(tid)); v1.q == Park(v.q, s) && tid !in v1.threads && Over(v1, call)
  {
    hide Inv, Over, Park;
    LeaveIsOver(v, tid, Next(v, DispatchUnavailable(tid)));
  }

  lemma AfterReturn(v: World, tid: Tid, call: Call, s: nat)
    requires tid in v.threads && v.threads[tid] == Pumping(call, Dispatching(s))
    ensures var v1 := Next(v, DispatchReturns(tid));
      v1.q == v.q && tid in v1.threads && v1.threads[tid] == Pumping(call, Scanning)
  {
  }

  // The call as it stands when its own dispatch has thrown or not.
  function Mark(call: Call, failed: bool): Call {
    if failed && call.Submitter? then call.(failed := true) else call
  }

  // pump_admission, with the outcome of every closure given by `dispatch`; failed says whether the
  // submitter's own dispatch threw.
  method PumpAdmission(ops: DeviceOps, call: Call, tid: Tid, dispatch: nat -> DispatchOutcome, ghost w: World, ghost es: seq<Event>)
    returns (failed: bool, ghost fs: seq<Event>)
    requires Inv(Run(w, es)) && ops.State() == Run(w, es).q
    requires tid in Run(w, es).threads && Run(w, es).threads[tid] == Pumping(call, Entering)
    modifies ops
    ensures Inv(Run(w, fs)) && ops.State() == Run(w, fs).q && tid !in Run(w, fs).threads
    ensures Over(Run(w, fs), Mark(call, failed))
  {
    failed := false;
    hide Inv, Next, Run, Pick, Park, EnterPump, Waiting, Over;
    AfterEnter(Run(w, es), tid, call);
    Step(w, es, EnterBy(tid));
    fs := es + [EnterBy(tid)];
    var entered := ops.BeginPump();
    if !entered {
      return;
    }
    while true
      invariant Inv(Run(w, fs)) && ops.State() == Run(w, fs).q
      invariant tid in Run(w, fs).threads && Run(w, fs).threads[tid] == Pumping(Mark(call, failed), Scanning)
      decreases Waiting(Run(w, fs).q)
    {
      ghost var v := Run(w, fs);
      AfterPick(v, tid, Mark(call, failed));
      Step(w, fs, PickBy(tid));
      var picked := ops.PickNode();
      fs := fs + [PickBy(tid)];
      if picked.None? {
        return;
      }
      match dispatch(picked.value) {
        case Returns =>
          AfterReturn(Run(w, fs), tid, Mark(call, failed), picked.value);
          Step(w, fs, DispatchReturns(tid));
          fs := fs + [DispatchReturns(tid)];
        case Unavailable =>
          AfterPark(Run(w, fs), tid, Mark(call, failed), picked.value);
          Step(w, fs, DispatchUnavailable(tid));
          ops.ParkNode(picked.value);
          fs := fs + [DispatchUnavailable(tid)];
          return;
        case Throws(failure) =>
          var preacceptance;
          preacceptance, fs := HandleThrow(ops, Mark(call, failed), tid, picked.value, failure, w, fs);
          failed := failed || preacceptance;
      }
    }
  }

  // ---------------------------------------------------------------- submitting and completing

  lemma AfterReserve(v: World, tid: Tid)
    requires Inv(v) && tid !in v.threads
    ensures var (q, r), v1 := Reserve(v.q), Next(v, ReserveBy(tid));
      && v1.q == q
      && (!r.Reserved? ==> v1 == v)
      && (r.Reserved? ==> tid in v1.threads && v1.threads[tid] == Preparing(v.subs) && v.subs in v1.table
                          && v1.table[v.subs].sequence == r.sequence)
  {
  }

  lemma AfterPrepare(v: World, tid: Tid, x: Sub)
    requires tid in v.threads && v.threads[tid] == Preparing(x) && x in v.table
    ensures var v1 := Next(v, PrepareThrows(tid));
      && v1.q == v.q && tid in v1.threads && v1.threads[tid] == Unwinding(x)
      && x in v1.table && v1.table[x].sequence == v.table[x].sequence
  {
  }

  lemma AfterPublish(v: World, tid: Tid, x: Sub)
    requires tid in v.threads && v.threads[tid] == Preparing(x) && x in v.table
    ensures var (q, r), v1 := Publish(v.q, v.table[x].sequence, x), Next(v, PublishBy(tid));
      && v1.q == q && tid in v1.threads && x in v1.table && v1.table[x].sequence == v.table[x].sequence
      && v1.threads[tid] == if r.Published? then Pumping(Submitter(x, v.table[x].sequence, false), Entering) else Unwinding(x)
  {
  }

  lemma AfterUnwind(v: World, tid: Tid, x: Sub)
    requires tid in v.threads && v.threads[tid] == Unwinding(x) && x in v.table
    ensures var v1 := Next(v, AbandonBy(tid));
      && v1.q == Abandon(v.q, v.table[x].sequence) && tid !in v1.threads && x in v1.table && v1.table[x].stage == Threw(false)
  {
  }

  // The unwinding of a submission that was not published.
  method Unwind(ops: DeviceOps, tid: Tid, sequence: nat, ghost x: Sub, ghost w: World, ghost es: seq<Event>) returns (ghost fs: seq<Event>)
    requires Inv(Run(w, es)) && ops.State() == Run(w, es).q && x in Run(w, es).table && Run(w, es).table[x].sequence == sequence
    requires tid in Run(w, es).threads && Run(w, es).threads[tid] == Unwinding(x)
    modifies ops
    ensures Inv(Run(w, fs)) && ops.State() == Run(w, fs).q && tid !in Run(w, fs).threads
    ensures x in Run(w, fs).table && Run(w, fs).table[x].stage == Threw(false)
  {
    hide Inv, Next, Run, Abandon;
    AfterUnwind(Run(w, es), tid, x);
    Step(w, es, AbandonBy(tid));
    ops.AbandonSequence(sequence);
    fs := es + [AbandonBy(tid)];
  }

  // submit_prepared, from reservation to token or exception; the submission it makes is numbered x.
  method SubmitPrepared(ops: DeviceOps, tid: Tid, sub: Sub, prepareThrows: bool, dispatch: nat -> DispatchOutcome, ghost w: World, ghost es: seq<Event>)
    returns (r: SubmitOutcome, ghost fs: seq<Event>)
    requires Inv(Run(w, es)) && ops.State() == Run(w, es).q && tid !in Run(w, es).threads && sub == Run(w, es).subs
    modifies ops
    ensures Inv(Run(w, fs)) && ops.State() == Run(w, fs).q && tid !in Run(w, fs).threads
    ensures r.Refused? <==> !Reserve(old(ops.State())).1.Reserved?
    ensures !r.Refused? ==> sub in Run(w, fs).table
    ensures r.Thrown? ==> Run(w, fs).table[sub].stage.Threw?
    ensures r.Token? ==> Run(w, fs).table[sub].stage.Returned? && Run(w, fs).table[sub].sequence == r.sequence
  {
    hide Inv, Next, Run, Reserve, Publish, Abandon;
    AfterReserve(Run(w, es), tid);
    Step(w, es, ReserveBy(tid));
    var reserved := ops.ReserveSequence();
    fs := es + [ReserveBy(tid)];
    if !reserved.Reserved? {
      return Refused, fs;
    }
    var s := reserved.sequence;
    if prepareThrows {
      AfterPrepare(Run(w, fs), tid, sub);
      Step(w, fs, PrepareThrows(tid));
      fs := Unwind(ops, tid, s, sub, w, fs + [PrepareThrows(tid)]);
      return Thrown, fs;
    }
    AfterPublish(Run(w, fs), tid, sub);
    Step(w, fs, PublishBy(tid));
    var published := ops.PublishNode(s, sub);
    fs := fs + [PublishBy(tid)];
    if !published.Published? {
      fs := Unwind(ops, tid, s, sub, w, fs);
      return Thrown, fs;
    }
    var failed;
    failed, fs := PumpAdmission(ops, Submitter(sub, s, false), tid, dispatch, w, fs);
    r := if failed then Thrown else Token(s);
  }

  lemma AfterComplete(v: World, tid: Tid, s: nat, outcome: Option<Failure>)
    requires tid !in v.threads
    ensures var (q, r), v1 := Complete(v.q, s, outcome), Next(v, CompleteBy(tid, s, outcome));
      && v1.q == q
      && (r == Completed(true) ==> tid in v1.threads && v1.threads[tid] == Pumping(Completer, Entering))
      && (r != Completed(true) ==> tid !in v1.threads)
  {
  }

  // complete, with the pump it starts.
  method CompleteAndPump(ops: DeviceOps, tid: Tid, s: nat, outcome: Option<Failure>, dispatch: nat -> DispatchOutcome, ghost w: World, ghost es: seq<Event>)
    returns (r: CompleteOutcome, ghost fs: seq<Event>)
    requires Inv(Run(w, es)) && ops.State() == Run(w, es).q && tid !in Run(w, es).threads
    modifies ops
    ensures Inv(Run(w, fs)) && ops.State() == Run(w, fs).q && tid !in Run(w, fs).threads
    ensures r == Complete(old(ops.State()), s, outcome).1
  {
    hide Inv, Next, Run, Complete;
    AfterComplete(Run(w, es), tid, s, outcome);
    Step(w, es, CompleteBy(tid, s, outcome));
    r := ops.CompleteSequence(s, outcome);
    fs := es + [CompleteBy(tid, s, outcome)];
    if r == Completed(true) {
      var failed;
      failed, fs := PumpAdmission(ops, Completer, tid, dispatch, w, fs);
    }
  }
}

// Completions, and the main theorem: every event keeps the invariant.

module AdmissionSafety {
  import opened SizeT
  import opened AdmissionQueue
  import opened AdmissionProtocol
  import opened AdmissionInvariants

  // ---------------------------------------------------------------- completions

  lemma CompleteQueue(q: Queue, s: nat, f: Option<Failure>)
    requires QueueInv(q) && Complete(q, s, f).1.Completed?
    ensures QueueInv(Complete(q, s, f).0)
  {
    EraseQueue(q, s, Complete(q, s, f).0) by { hide QueueInv, RemoveFirst; }
  }

  lemma CompleteKeepsTarget(w: World, w': World, pc: Pc, s: nat, f: Option<Failure>)
    requires QueueInv(w.q) && TargetOk(w, pc) && Complete(w.q, s, f).1.Completed?
    requires w'.q == Complete(w.q, s, f).0 && w'.done == w.done + {s} && w'.table == w.table
    ensures TargetOk(w', pc)
  {
    if pc.Pumping? && pc.phase.Dispatching? && pc.phase.target in w.q.nodes && pc.phase.target != s {
      EraseKeepsTarget(w.q, s, w'.q, pc.phase.target) by { hide QueueInv, RemoveFirst; }
    }
  }

  // Sequence s moves from the queue to the completed ones.
  lemma CompletedData(w: World, w': World, s: nat)
    requires DataInv(w) && s in w.q.nodes && QueueInv(w'.q) && w'.done == w.done + {s}
    requires w'.q.nodes == w.q.nodes - {s} && w'.q.next == w.q.next && w'.q.skipped == w.q.skipped
    requires w'.table == w.table && w'.subs == w.subs
    ensures DataInv(w')
  {
    assert 0 < s < w.q.next && s !in w.q.skipped;
    hide QueueInv;
    forall sub | sub in w.table ensures SubmissionOk(w', sub) { assert SubmissionOk(w, sub); }
    TableFrame(w, w', w.subs);
    forall t | t in w'.q.nodes ensures NodeOk(w', t) { assert NodeOk(w, t); }
  }

  lemma CompleteData(w: World, w': World, s: nat, f: Option<Failure>)
    requires DataInv(w) && Complete(w.q, s, f).1.Completed?
    requires w'.q == Complete(w.q, s, f).0 && w'.done == w.done + {s} && w'.table == w.table && w'.subs == w.subs
    ensures DataInv(w')
  {
    hide QueueInv, TableInv, NodesInv, DoneInv;
    CompleteQueue(w.q, s, f);
    CompletedData(w, w', s);
  }

  lemma CompleteFailedPreserves(w: World, tid: Tid)
    requires Inv(w) && In(w, tid, (p: Phase) => p.Completing?)
    ensures Inv(DoCompleteFailed(w, tid, w.threads[tid].call, w.threads[tid].phase.target, w.threads[tid].phase.failure))
  {
    var call, t, failure := w.threads[tid].call, w.threads[tid].phase.target, w.threads[tid].phase.failure;
    var w' := DoCompleteFailed(w, tid, call, t, failure);
    hide ControlInv, DataInv;
    KeepPumping(w, w', tid);
    hide Complete;
    if Complete(w.q, t, Some(failure)).1.Completed? {
      CompleteData(w, w', t, Some(failure));
    } else {
      UntouchedData(w, w') by { DataParts(w); }
    }
  }

  // A completion changes one thread, keeps the records and leaves the pump flag alone.
  lemma CompleteFrame(w: World, tid: Tid, s: nat, f: Option<Failure>)
    requires ControlInv(w) && tid !in w.threads && Complete(w.q, s, f).1.Completed?
    ensures var w' := DoComplete(w, tid, s, f);
      && PumpInv(w') && OthersKept(w, w', tid) && RecordsKept(w, w', w.subs)
      && w'.q == Complete(w.q, s, f).0 && w'.done == w.done + {s} && w'.table == w.table
      && (tid in w'.threads ==> w'.threads[tid] == Pumping(Completer, Entering))
  {
    var w' := DoComplete(w, tid, s, f);
    assert w'.q.pumping == w.q.pumping;
    hide Complete;
    PumpFrame(w, w');
  }

  lemma CompleteControl(w: World, tid: Tid, s: nat, f: Option<Failure>)
    requires ControlInv(w) && QueueInv(w.q) && tid !in w.threads && Complete(w.q, s, f).1.Completed?
    ensures ControlInv(DoComplete(w, tid, s, f))
  {
    var w' := DoComplete(w, tid, s, f);
    hide QueueInv, Complete, DoComplete, PumpInv;
    CompleteFrame(w, tid, s, f);
    forall a | a in w.threads ensures TargetOk(w', w.threads[a]) { CompleteKeepsTarget(w, w', w.threads[a], s, f); }
    ThreadsFrame(w, w', tid, w.subs);
  }

  lemma CompletePreserves(w: World, tid: Tid, s: nat, f: Option<Failure>)
    requires Inv(w) && tid !in w.threads
    ensures Inv(DoComplete(w, tid, s, f))
  {
    if Complete(w.q, s, f).1.Completed? {
      hide Complete, QueueInv, ControlInv, TableInv, NodesInv, DoneInv;
      CompleteControl(w, tid, s, f);
      CompleteData(w, DoComplete(w, tid, s, f), s, f);
    }
  }

  // ---------------------------------------------------------------- events outside the calls

  // Only flags and retained failures of the queue change.
  lemma FlagsPreserve(w: World, w': World)
    requires Inv(w) && w' == w.(q := w'.q)
    requires w'.q == w.q.(closing := w'.q.closing, failures := w'.q.failures, pending := w'.q.pending)
    ensures Inv(w')
  {
    PumpFrame(w, w');
    forall a | a in w.threads ensures TargetOk(w', w.threads[a]) { assert TargetOk(w, w.threads[a]); }
    ThreadsFrame(w, w', 0, w.subs);
    UntouchedData(w, w');
  }

  // A pump started by the failed completion inside a pump always finds the pump taken.
  lemma NestedPumpReturns(w: World, tid: Tid)
    requires Inv(w) && tid in w.threads && InPump(w.threads[tid])
    ensures EnterPump(w.q) == (w.q, false)
  {
  }

  lemma NestedPreserves(w: World, tid: Tid)
    requires Inv(w) && In(w, tid, (p: Phase) => p.Nested?)
    ensures Inv(Next(w, EnterNested(tid)))
  {
    NestedPumpReturns(w, tid);
    var w' := Next(w, EnterNested(tid));
    hide PumpInv, ThreadsInv, QueueInv, TableInv, NodesInv, DoneInv;
    KeepPumping(w, w', tid);
    UntouchedData(w, w');
  }

  // ---------------------------------------------------------------- all events

  lemma SubmitPreserves(w: World, e: Event)
    requires Inv(w) && (e.ReserveBy? || e.PrepareThrows? || e.PublishBy? || e.AbandonBy?)
    ensures Inv(Next(w, e))
  {
    hide ControlInv, DataInv;
    if e.ReserveBy? && e.tid !in w.threads {
      ReserveControl(w, e.tid);
      ReserveData(w, e.tid);
    } else if e.PrepareThrows? && AtPrepare(w, e.tid) {
      UnwindPreserves(w, e.tid);
    } else if e.PublishBy? && AtPrepare(w, e.tid) {
      PublishData(w, e.tid);
      var x := w.threads[e.tid].sub;
      if Publish(w.q, w.table[x].sequence, x).1.Published? { PublishControl(w, e.tid); } else { UnwindPreserves(w, e.tid); }
    } else if e.AbandonBy? && AtUnwind(w, e.tid) {
      AbandonUnpublishedPreserves(w, e.tid);
    } else if e.AbandonBy? && In(w, e.tid, (p: Phase) => p.RolledBack?) && w.threads[e.tid].call.Submitter? {
      AbandonFailedPreserves(w, e.tid);
    }
  }

  lemma ThrowPreserves(w: World, tid: Tid, failure: Failure)
    requires Inv(w) && AtDispatch(w, tid)
    ensures Inv(Next(w, DispatchThrows(tid, failure)))
  {
    var call, t := w.threads[tid].call, w.threads[tid].phase.target;
    hide ControlInv, DataInv, DoThrow;
    if !Preaccepts(call, t) {
      FailOtherControl(w, tid, failure);
      FailOtherData(w, tid, failure);
    } else if t in w.q.nodes {
      RejectControl(w, tid, failure);
      RejectData(w, tid, failure);
    } else {
      SelfCompletedPreserves(w, tid, failure);
    }
  }

  lemma PumpPreserves(w: World, e: Event)
    requires Inv(w)
    requires e.EnterBy? || e.PickBy? || e.DispatchReturns? || e.DispatchUnavailable? || e.DispatchThrows? || e.CompleteFailed?
    ensures Inv(Next(w, e))
  {
    hide Inv, DoThrow, DoPick, DoEnter, DoUnavailable, DoCompleteFailed;
    if e.EnterBy? && In(w, e.tid, (p: Phase) => p.Entering?) {
      EnterControl(w, e.tid) by { InvParts(w); }
      EnterData(w, e.tid);
      InvWhole(DoEnter(w, e.tid, w.threads[e.tid].call));
    } else if e.PickBy? && In(w, e.tid, (p: Phase) => p.Scanning?) {
      if Pick(w.q).1.None? { PickNonePreserves(w, e.tid); } else { PickSomePreserves(w, e.tid); }
    } else if e.DispatchReturns? && AtDispatch(w, e.tid) {
      ReturnPreserves(w, e.tid);
    } else if e.DispatchUnavailable? && AtDispatch(w, e.tid) {
      UnavailablePreserves(w, e.tid);
    } else if e.DispatchThrows? && AtDispatch(w, e.tid) {
      ThrowPreserves(w, e.tid, e.failure);
    } else if e.CompleteFailed? && In(w, e.tid, (p: Phase) => p.Completing?) {
      CompleteFailedPreserves(w, e.tid);
    }
  }

  lemma InvWhole(w: World)
    requires ControlInv(w) && DataInv(w)
    ensures Inv(w)
  {
  }

  // Main theorem, one step.
  lemma StepPreserves(w: World, e: Event)
    requires Inv(w)
    ensures Inv(Next(w, e))
  {
    hide Inv;
    match e
    case ReserveBy(_) => SubmitPreserves(w, e);
    case PrepareThrows(_) => SubmitPreserves(w, e);
    case PublishBy(_) => SubmitPreserves(w, e);
    case AbandonBy(_) => SubmitPreserves(w, e);
    case EnterNested(tid) => if In(w, tid, (p: Phase) => p.Nested?) { NestedPreserves(w, tid); }
    case CompleteBy(tid, s, outcome) => if tid !in w.threads { CompletePreserves(w, tid, s, outcome); }
    case CommitFor(s, failure) => FlagsPreserve(w, Next(w, e));
    case FailAfterCompletion(s, failure) => FlagsPreserve(w, Next(w, e));
    case Close => FlagsPreserve(w, Next(w, e));
    case _ => PumpPreserves(w, e);
  }
}

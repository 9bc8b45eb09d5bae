// No wake-up is lost, and a failure that wait reported stays.

module AdmissionWait {
  import opened SizeT
  import opened AdmissionQueue
  import opened AdmissionProtocol
  import opened AdmissionInvariants
  import opened AdmissionProperties

  // ---------------------------------------------------------------- no lost wake-up

  // A thread that still owes a pump call.
  predicate OwesPump(pc: Pc) {
    pc.Pumping? && pc.phase.Entering?
  }

  // Nobody pumps or is about to, the queue is open, and the last pump did not stop for want of a resource.
  ghost predicate Settled(w: World) {
    !w.q.pumping && !w.q.closing && !w.unavailable && forall a :: a in w.threads ==> !OwesPump(w.threads[a])
  }

  predicate Saturated(q: Queue) {
    q.credits == q.capacity || q.credits == |q.fifo|
  }

  ghost predicate WakeInv(w: World) {
    Settled(w) ==> Saturated(w.q)
  }

  // Quiet events unsettle the queue or leave its order and credits alone.
  ghost predicate Undisturbed(w: World, w': World) {
    Settled(w') ==> Settled(w) && w'.q.credits == w.q.credits && w'.q.capacity == w.q.capacity && w'.q.fifo == w.q.fifo
  }

  lemma SubmitUndisturbed(w: World, e: Event)
    requires PumpInv(w) && (e.ReserveBy? || e.PrepareThrows? || e.PublishBy? || e.AbandonBy?)
    ensures Undisturbed(w, Next(w, e))
  {
    assert forall a :: a in w.threads && InPump(w.threads[a]) ==> w.q.pumping;
    hide PumpInv;
    var w' := Next(w, e);
    assert forall a :: a in w.threads && (e.ReserveBy? || a != e.tid) ==> a in w'.threads && w'.threads[a] == w.threads[a];
    if e.PublishBy? && w'.q != w.q { assert OwesPump(w'.threads[e.tid]); }
  }

  lemma InsideUndisturbed(w: World, e: Event)
    requires PumpInv(w) && (e.EnterBy? || e.DispatchReturns? || e.DispatchUnavailable? || e.DispatchThrows? || e.EnterNested?)
    ensures Undisturbed(w, Next(w, e))
  {
    assert forall a :: a in w.threads && InPump(w.threads[a]) ==> w.q.pumping;
    hide PumpInv, RemoveFirst;
  }

  lemma CompleteUndisturbed(w: World, e: Event)
    requires PumpInv(w) && (e.CompleteFailed? || e.CompleteBy?)
    ensures Undisturbed(w, Next(w, e))
  {
    assert forall a :: a in w.threads && InPump(w.threads[a]) ==> w.q.pumping;
    hide PumpInv, RemoveFirst;
    var w' := Next(w, e);
    if e.CompleteBy? && w' != w && !w.q.closing { assert OwesPump(w'.threads[e.tid]); }
  }

  lemma PickSaturates(w: World, tid: Tid)
    requires Inv(w) && In(w, tid, (p: Phase) => p.Scanning?)
    ensures WakeInv(DoPick(w, tid, w.threads[tid].call))
  {
    PickQueue(w.q);
    hide Pick, QueueInv;
  }

  lemma StepWakes(w: World, e: Event)
    requires Inv(w) && WakeInv(w)
    ensures WakeInv(Next(w, e))
  {
    assert PumpInv(w);
    hide Inv, PumpInv;
    match e
    case PickBy(tid) => if In(w, tid, (p: Phase) => p.Scanning?) { hide DoPick, WakeInv; PickSaturates(w, tid); }
    case CommitFor(s, f) =>
    case FailAfterCompletion(s, f) =>
    case Close =>
    case CompleteFailed(_) => hide Next; CompleteUndisturbed(w, e);
    case CompleteBy(_, _, _) => hide Next; CompleteUndisturbed(w, e);
    case ReserveBy(_) => hide Next; SubmitUndisturbed(w, e);
    case PrepareThrows(_) => hide Next; SubmitUndisturbed(w, e);
    case PublishBy(_) => hide Next; SubmitUndisturbed(w, e);
    case AbandonBy(_) => hide Next; SubmitUndisturbed(w, e);
    case _ => hide Next; InsideUndisturbed(w, e);
  }

  lemma InitialWakes(capacity: nat)
    ensures WakeInv(InitialWorld(capacity))
  {
  }

  lemma {:induction false} RunWakes(capacity: nat, es: seq<Event>)
    ensures WakeInv(Run(InitialWorld(capacity), es))
    decreases |es|
  {
    hide Inv, WakeInv, Next, InitialWorld;
    var w := InitialWorld(capacity);
    if es == [] {
      InitialWakes(capacity);
    } else {
      RunWakes(capacity, es[..|es| - 1]);
      ReachableInv(capacity, es[..|es| - 1]);
      StepWakes(Run(w, es[..|es| - 1]), es[|es| - 1]);
    }
  }

  // Whenever the queue has settled, every credit is in use or every node is executing.
  lemma NoLostWakeup(capacity: nat, es: seq<Event>)
    requires Settled(Run(InitialWorld(capacity), es))
    ensures var q := Run(InitialWorld(capacity), es).q;
      q.credits == q.capacity || forall s :: s in q.nodes ==> q.nodes[s].executing
  {
    ReachableInv(capacity, es);
    RunWakes(capacity, es);
    var q := Run(InitialWorld(capacity), es).q;
    hide Run, InitialWorld, Settled;
    forall s | s in q.nodes && q.credits != q.capacity ensures q.nodes[s].executing { assert q.fifo[PlaceOf(q, s)] == s; }
  }

  // ---------------------------------------------------------------- retained failures

  ghost predicate FailuresDone(w: World) {
    forall s :: s in w.q.failures ==> s in w.done
  }

  lemma StepFailuresDone(w: World, e: Event)
    requires FailuresDone(w)
    ensures FailuresDone(Next(w, e))
  {
    if e.CompleteFailed? || e.CompleteBy? || e.FailAfterCompletion? {
      hide RemoveFirst;
    } else {
      OthersKeepFailures(w, e);
    }
  }

  lemma OthersKeepFailures(w: World, e: Event)
    requires !e.CompleteFailed? && !e.CompleteBy? && !e.FailAfterCompletion?
    ensures Next(w, e).q.failures == w.q.failures && Next(w, e).done == w.done
  {
    RegionsKeepFailures(w.q);
    hide Reserve, Publish, Abandon, EnterPump, Pick, Park, FailDispatch, CommitFailure;
    if e.ReserveBy? || e.PrepareThrows? || e.PublishBy? || e.AbandonBy? {
      hide DoCompleteFailed, DoComplete, DoEnter, DoPick, DoUnavailable, DoThrow;
    } else {
      hide DoCompleteFailed, DoComplete, DoReserve, DoPublish, DoUnwind, DoAbandonFailed, DoAbandonUnpublished;
    }
  }

  lemma RegionsKeepFailures(q: Queue)
    ensures Reserve(q).0.failures == q.failures && EnterPump(q).0.failures == q.failures && Pick(q).0.failures == q.failures
    ensures forall s, sub :: Publish(q, s, sub).0.failures == q.failures
    ensures forall s :: Abandon(q, s).failures == q.failures && Park(q, s).failures == q.failures
    ensures forall s, pre :: FailDispatch(q, s, pre).failures == q.failures
    ensures forall s, f :: CommitFailure(q, s, f).0.failures == q.failures
  {
    hide Scan, RemoveFirst;
  }

  lemma {:induction false} RunFailuresDone(w: World, es: seq<Event>)
    requires FailuresDone(w)
    ensures FailuresDone(Run(w, es))
    decreases |es|
  {
    hide FailuresDone, Next;
    if es != [] {
      RunFailuresDone(w, es[..|es| - 1]);
      StepFailuresDone(Run(w, es[..|es| - 1]), es[|es| - 1]);
    }
  }

  // Once wait threw a retained failure for a sequence, every later wait throws the same one.
  lemma FailureIsPermanent(capacity: nat, es: seq<Event>, fs: seq<Event>, s: nat, f: Failure)
    requires WaitLook(Run(InitialWorld(capacity), es).q, s) == Failed(f)
    ensures WaitLook(Run(InitialWorld(capacity), es + fs).q, s) == Failed(f)
  {
    var w := InitialWorld(capacity);
    RunAppend(w, es, fs);
    RunGrows(Run(w, es), fs);
    RunFailuresDone(w, es + fs);
    ReachableInv(capacity, es + fs);
    hide Run, InitialWorld, ControlInv, QueueInv, TableInv, NodesInv;
    assert s in Run(w, es + fs).done;
  }

  // ---------------------------------------------------------------- what a completion reports

  // The enabled completion of node s by e, with its own failure if it has one.
  ghost predicate Completes(w: World, e: Event, s: nat, own: Option<Failure>) {
    && s in w.q.nodes
    && ((e.CompleteBy? && e.tid !in w.threads && e.sequence == s && e.outcome == own)
        || (e.CompleteFailed? && In(w, e.tid, (p: Phase) => p.Completing?) && w.threads[e.tid].phase.target == s
            && own == Some(w.threads[e.tid].phase.failure)))
  }

  // A completed sequence reports its own failure, else the one committed for it, else success.
  lemma CompletionReported(capacity: nat, es: seq<Event>, e: Event, s: nat, own: Option<Failure>)
    requires Completes(Run(InitialWorld(capacity), es), e, s, own)
    ensures var w := Run(InitialWorld(capacity), es);
      WaitLook(Next(w, e).q, s) ==
        if own.Some? then Failed(own.value) else if s in w.q.pending then Failed(w.q.pending[s]) else Finished
  {
    ReachableInv(capacity, es);
    RunFailuresDone(InitialWorld(capacity), es);
    CompletedReport(Run(InitialWorld(capacity), es), e, s, own);
  }

  lemma CompletedReport(w: World, e: Event, s: nat, own: Option<Failure>)
    requires Inv(w) && FailuresDone(w) && Completes(w, e, s, own)
    ensures WaitLook(Next(w, e).q, s) ==
      if own.Some? then Failed(own.value) else if s in w.q.pending then Failed(w.q.pending[s]) else Finished
  {
    assert s !in w.done && s !in w.q.failures;
    assert 0 < s < w.q.next && s !in w.q.skipped;
    hide Inv, RemoveFirst;
  }

  // Once completed, a sequence never blocks wait again: it reports its retained failure or success.
  ghost predicate DoneBelow(w: World) {
    forall s :: s in w.done ==> s <= w.q.completed
  }

  lemma RegionsKeepCompleted(q: Queue)
    ensures Reserve(q).0.completed == q.completed && EnterPump(q).0.completed == q.completed && Pick(q).0.completed == q.completed
    ensures forall s, sub :: Publish(q, s, sub).0.completed == q.completed
    ensures forall s :: Abandon(q, s).completed == q.completed && Park(q, s).completed == q.completed
    ensures forall s, pre :: FailDispatch(q, s, pre).completed == q.completed
    ensures forall s, f :: CommitFailure(q, s, f).0.completed == q.completed
  {
    hide Scan, RemoveFirst;
  }

  lemma OthersKeepCompleted(w: World, e: Event)
    requires !e.CompleteFailed? && !e.CompleteBy?
    ensures Next(w, e).q.completed == w.q.completed
    ensures e.FailAfterCompletion? ==> Next(w, e).done == w.done
  {
    RegionsKeepCompleted(w.q);
    hide Reserve, Publish, Abandon, EnterPump, Pick, Park, FailDispatch, CommitFailure, StampOf;
    if e.ReserveBy? || e.PrepareThrows? || e.PublishBy? || e.AbandonBy? {
      hide DoEnter, DoPick, DoUnavailable, DoThrow;
    } else {
      hide DoReserve, DoPublish, DoUnwind, DoAbandonFailed, DoAbandonUnpublished;
    }
  }

  lemma StepDoneBelow(w: World, e: Event)
    requires DoneBelow(w)
    ensures DoneBelow(Next(w, e))
  {
    if e.CompleteFailed? || e.CompleteBy? {
      hide RemoveFirst;
    } else {
      if !e.FailAfterCompletion? { OthersKeepFailures(w, e); }
      OthersKeepCompleted(w, e);
      hide Next;
    }
  }

  lemma {:induction false} RunDoneBelow(capacity: nat, es: seq<Event>)
    ensures DoneBelow(Run(InitialWorld(capacity), es))
    decreases |es|
  {
    hide DoneBelow, Next, InitialWorld;
    if es == [] {
      assert DoneBelow(InitialWorld(capacity)) by { NothingDone(capacity); }
    } else {
      RunDoneBelow(capacity, es[..|es| - 1]);
      StepDoneBelow(Run(InitialWorld(capacity), es[..|es| - 1]), es[|es| - 1]);
    }
  }

  lemma NothingDone(capacity: nat)
    ensures DoneBelow(InitialWorld(capacity))
  {
  }

  // In every run wait never blocks on a completed sequence.
  lemma CompletedNeverBlocks(capacity: nat, es: seq<Event>, s: nat)
    requires s in Run(InitialWorld(capacity), es).done
    ensures var q := Run(InitialWorld(capacity), es).q; WaitLook(q, s) == if s in q.failures then Failed(q.failures[s]) else Finished
  {
    ReachableInv(capacity, es);
    RunDoneBelow(capacity, es);
    hide Run, InitialWorld, ControlInv, QueueInv, TableInv, NodesInv;
  }

  // A failure found after the completion is reported unless there was one before.
  lemma LateFailureReported(capacity: nat, es: seq<Event>, s: nat, f: Failure)
    requires var w := Run(InitialWorld(capacity), es); s in w.done && s !in w.q.failures
    ensures WaitLook(Next(Run(InitialWorld(capacity), es), FailAfterCompletion(s, f)).q, s) == Failed(f)
  {
    CompletedNeverBlocks(capacity, es, s);
    hide Run, InitialWorld;
  }

  // ---------------------------------------------------------------- committed failures

  // Sequence s has the same committed failure, or left the queue.
  ghost predicate PendingKept(q: Queue, q': Queue, s: nat) {
    s in q.pending && s in q'.nodes ==> s in q'.pending && q'.pending[s] == q.pending[s]
  }

  lemma RegionsKeepPending(q: Queue, s: nat)
    ensures PendingKept(q, Reserve(q).0, s) && PendingKept(q, EnterPump(q).0, s) && PendingKept(q, Pick(q).0, s)
    ensures forall t, sub :: PendingKept(q, Publish(q, t, sub).0, s)
    ensures forall t :: PendingKept(q, Park(q, t), s)
    ensures forall t, pre :: PendingKept(q, FailDispatch(q, t, pre), s)
    ensures forall t, f :: PendingKept(q, Complete(q, t, f).0, s)
    ensures forall t, f :: t != s ==> PendingKept(q, CommitFailure(q, t, f).0, s)
    ensures forall t, f :: PendingKept(q, RecordPostCompletionFailure(q, t, f), s)
  {
    hide Scan, RemoveFirst;
  }

  // Only sequences outside the queue are given back.
  lemma AbandonKeepsPending(w: World, tid: Tid, s: nat)
    requires Inv(w) && s in w.q.nodes
    ensures PendingKept(w.q, Next(w, AbandonBy(tid)).q, s)
  {
    if AtUnwind(w, tid) {
      assert ThreadOk(w, w.threads[tid]) && SubmissionOk(w, w.threads[tid].sub);
    } else if In(w, tid, (p: Phase) => p.RolledBack?) && w.threads[tid].call.Submitter? {
      assert ThreadOk(w, w.threads[tid]) && TargetOk(w, w.threads[tid]) && SubmissionOk(w, w.threads[tid].call.sub);
    }
    hide Inv;
  }

  lemma SubmitKeepsPending(w: World, e: Event, s: nat)
    requires e.ReserveBy? || e.PrepareThrows? || e.PublishBy? || e.EnterBy? || e.PickBy? || e.DispatchUnavailable?
    ensures PendingKept(w.q, Next(w, e).q, s)
  {
    RegionsKeepPending(w.q, s);
    assert PendingKept(w.q, w.q, s);
    hide PendingKept, Reserve, Publish, EnterPump, Pick, Park, StampOf;
  }

  lemma OthersKeepPending(w: World, e: Event, s: nat)
    requires e.DispatchReturns? || e.DispatchThrows? || e.CompleteFailed? || e.EnterNested? || e.CompleteBy?
    ensures PendingKept(w.q, Next(w, e).q, s)
  {
    RegionsKeepPending(w.q, s);
    assert PendingKept(w.q, w.q, s);
    hide PendingKept, EnterPump, FailDispatch, Complete;
  }

  lemma StepKeepsPending(w: World, e: Event, s: nat)
    requires Inv(w) && s in w.q.nodes && (e.CommitFor? ==> e.sequence != s)
    ensures PendingKept(w.q, Next(w, e).q, s)
  {
    if e.AbandonBy? {
      hide Inv, Next;
      AbandonKeepsPending(w, e.tid, s);
    } else if e.CommitFor? || e.FailAfterCompletion? || e.Close? {
      hide Inv;
    } else {
      hide Inv, Next, PendingKept;
      if e.DispatchReturns? || e.DispatchThrows? || e.CompleteFailed? || e.EnterNested? || e.CompleteBy? {
        OthersKeepPending(w, e, s);
      } else {
        SubmitKeepsPending(w, e, s);
      }
    }
  }

  // Sequence s is queued throughout, and no other failure is committed for it.
  ghost predicate QueuedThroughout(w: World, es: seq<Event>, s: nat) {
    && (forall k: nat :: k <= |es| ==> s in Run(w, es[..k]).q.nodes)
    && (forall k: nat :: k < |es| && es[k].CommitFor? ==> es[k].sequence != s)
  }

  lemma {:induction false} RunKeepsPending(w: World, es: seq<Event>, s: nat)
    requires Inv(w) && s in w.q.pending && QueuedThroughout(w, es, s)
    ensures s in Run(w, es).q.nodes && s in Run(w, es).q.pending && Run(w, es).q.pending[s] == w.q.pending[s]
    decreases |es|
  {
    hide Inv, Next;
    assert es[..|es|] == es;
    if es != [] {
      var fs := es[..|es| - 1];
      assert forall k: nat :: k <= |fs| ==> fs[..k] == es[..k];
      RunKeepsPending(w, fs, s);
      RunInv(w, fs);
      StepKeepsPending(Run(w, fs), es[|fs|], s);
    }
  }

  // A commit for a queued sequence above the newest completion is accepted.
  lemma CommitTakes(w: World, s: nat, f: Failure)
    requires Inv(w) && s in w.q.nodes && s > w.q.completed
    ensures var w1 := Next(w, CommitFor(s, f)); w1.q.nodes == w.q.nodes && s in w1.q.pending && w1.q.pending[s] == f
  {
    hide ControlInv, TableInv, NodesInv, DoneInv;
  }

  // A failure committed for a sequence in the queue stays committed whatever happens to other sequences,
  // and is what wait throws once the sequence completes without a failure of its own.
  lemma CommittedFailureReported(capacity: nat, es: seq<Event>, s: nat, f: Failure, fs: seq<Event>, e: Event)
    requires var w := Run(InitialWorld(capacity), es); s in w.q.nodes && s > w.q.completed
    requires QueuedThroughout(Run(InitialWorld(capacity), es + [CommitFor(s, f)]), fs, s)
    requires Completes(Run(InitialWorld(capacity), es + [CommitFor(s, f)] + fs), e, s, None)
    ensures WaitLook(Next(Run(InitialWorld(capacity), es + [CommitFor(s, f)] + fs), e).q, s) == Failed(f)
  {
    var w0 := InitialWorld(capacity);
    var gs := es + [CommitFor(s, f)];
    ReachableInv(capacity, es);
    ReachableInv(capacity, gs);
    assert gs[..|gs| - 1] == es;
    assert Run(w0, gs) == Next(Run(w0, es), CommitFor(s, f));
    CommitTakes(Run(w0, es), s, f);
    hide Next, Inv, InitialWorld;
    RunKeepsPending(Run(w0, gs), fs, s);
    RunAppend(w0, gs, fs);
    CompletionReported(capacity, gs + fs, e, s, None);
  }
}

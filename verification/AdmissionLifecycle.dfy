// The two ends of a sequence and of a queue: what a reserved sequence starts with, and what a closed queue still does.

module AdmissionLifecycle {
  import opened SizeT
  import opened AdmissionQueue
  import opened AdmissionProtocol
  import opened AdmissionInvariants
  import opened AdmissionProperties
  import opened AdmissionWait

  // ---------------------------------------------------------------- fresh sequences and closed queues

  // Committed failures wait for sequences that are still to complete; the newest completion is one.
  ghost predicate PendingLive(w: World) {
    && (w.q.completed == 0 || w.q.completed in w.done)
    && forall s :: s in w.q.pending ==> 0 < s < w.q.next && s !in w.done && s !in w.q.skipped
  }

  // The counter, the newest completion and the committed failures are as before, or the counter moved on.
  ghost predicate PendingSame(q: Queue, q': Queue) {
    q'.pending == q.pending && q'.skipped == q.skipped && q'.completed == q.completed && q.next <= q'.next
  }

  lemma RegionsPendingSame(q: Queue)
    ensures PendingSame(q, Reserve(q).0) && PendingSame(q, EnterPump(q).0) && PendingSame(q, Pick(q).0)
    ensures forall s, sub :: PendingSame(q, Publish(q, s, sub).0)
    ensures forall s :: PendingSame(q, Park(q, s))
    ensures forall s, pre :: PendingSame(q, FailDispatch(q, s, pre))
    ensures forall s, f :: PendingSame(q, RecordPostCompletionFailure(q, s, f))
  {
    hide Scan, RemoveFirst;
  }

  lemma SubmitPendingSame(w: World, e: Event)
    requires e.ReserveBy? || e.PrepareThrows? || e.PublishBy? || e.EnterBy? || e.PickBy? || e.DispatchUnavailable?
    ensures PendingSame(w.q, Next(w, e).q) && Next(w, e).done == w.done
  {
    RegionsPendingSame(w.q);
    assert PendingSame(w.q, w.q);
    hide PendingSame, Reserve, Publish, EnterPump, Pick, Park, StampOf;
  }

  lemma ThrowPendingSame(w: World, tid: Tid, call: Call, t: nat, failure: Failure)
    ensures PendingSame(w.q, DoThrow(w, tid, call, t, failure).q) && DoThrow(w, tid, call, t, failure).done == w.done
  {
    RegionsPendingSame(w.q);
    hide PendingSame, FailDispatch;
  }

  lemma InsidePendingSame(w: World, e: Event)
    requires e.DispatchReturns? || e.DispatchThrows? || e.EnterNested? || e.FailAfterCompletion? || e.Close?
    ensures PendingSame(w.q, Next(w, e).q) && Next(w, e).done == w.done
  {
    RegionsPendingSame(w.q);
    assert PendingSame(w.q, w.q);
    assert e.Close? ==> PendingSame(w.q, Next(w, e).q);
    hide PendingSame, EnterPump, RecordPostCompletionFailure, DoThrow;
    if e.DispatchThrows? && AtDispatch(w, e.tid) {
      ThrowPendingSame(w, e.tid, w.threads[e.tid].call, w.threads[e.tid].phase.target, e.failure);
    }
  }

  // The region of one give-back, commit or completion.
  lemma AbandonPendingLive(w: World, w': World, s: nat)
    requires PendingLive(w) && w'.q == Abandon(w.q, s) && w'.done == w.done
    ensures PendingLive(w')
  {
  }

  lemma CommitPendingLive(w: World, s: nat, f: Failure)
    requires PendingLive(w) && DoneBelow(w)
    ensures PendingLive(w.(q := CommitFailure(w.q, s, f).0))
  {
  }

  lemma CompletePendingLive(w: World, w': World, s: nat, f: Option<Failure>)
    requires PendingLive(w) && Complete(w.q, s, f).1.Completed? && w'.q == Complete(w.q, s, f).0 && w'.done == w.done + {s}
    ensures PendingLive(w')
  {
    hide RemoveFirst;
  }

  // A step gives back or completes one sequence, or leaves the queue's part of this alone.
  lemma AbandonRegion(w: World, tid: Tid)
    ensures var w' := Next(w, AbandonBy(tid)); w'.done == w.done && (w'.q == w.q || exists s :: w'.q == Abandon(w.q, s))
  {
    hide Abandon;
  }

  lemma CompleteRegion(w: World, e: Event)
    requires e.CompleteFailed? || e.CompleteBy?
    ensures var w' := Next(w, e);
      (w'.q == w.q && w'.done == w.done)
      || exists s, f :: Complete(w.q, s, f).1.Completed? && w'.q == Complete(w.q, s, f).0 && w'.done == w.done + {s}
  {
    hide Complete;
    if e.CompleteBy? {
      assert Complete(w.q, e.sequence, e.outcome).1.Completed? || Next(w, e) == w;
    }
  }

  lemma StepPendingLive(w: World, e: Event)
    requires PendingLive(w) && DoneBelow(w)
    ensures PendingLive(Next(w, e))
  {
    var w' := Next(w, e);
    if e.CommitFor? {
      CommitPendingLive(w, e.sequence, e.failure);
    } else if e.AbandonBy? {
      AbandonRegion(w, e.tid);
      hide Next, Abandon, PendingLive;
      if s: nat :| w'.q == Abandon(w.q, s) { AbandonPendingLive(w, w', s); } else { SamePendingLive(w, w'); }
    } else if e.CompleteFailed? || e.CompleteBy? {
      CompleteRegion(w, e);
      hide Next, Complete, PendingLive;
      if s, f :| Complete(w.q, s, f).1.Completed? && w'.q == Complete(w.q, s, f).0 && w'.done == w.done + {s} {
        CompletePendingLive(w, w', s, f);
      } else {
        SamePendingLive(w, w');
      }
    } else {
      hide Next;
      if e.DispatchReturns? || e.DispatchThrows? || e.EnterNested? || e.FailAfterCompletion? || e.Close? {
        InsidePendingSame(w, e);
      } else {
        SubmitPendingSame(w, e);
      }
      SamePendingLive(w, w');
    }
  }

  lemma SamePendingLive(w: World, w': World)
    requires PendingLive(w) && PendingSame(w.q, w'.q) && w'.done == w.done
    ensures PendingLive(w')
  {
  }

  lemma {:induction false} RunPendingLive(capacity: nat, es: seq<Event>)
    ensures PendingLive(Run(InitialWorld(capacity), es))
    decreases |es|
  {
    if es != [] {
      hide PendingLive, DoneBelow, Next, InitialWorld;
      RunPendingLive(capacity, es[..|es| - 1]);
      RunDoneBelow(capacity, es[..|es| - 1]);
      StepPendingLive(Run(InitialWorld(capacity), es[..|es| - 1]), es[|es| - 1]);
    }
  }

  // A sequence that is handed out carries nothing of an earlier use: wait blocks on it, and no failure is
  // retained or committed for it.
  lemma ReservedIsFresh(capacity: nat, es: seq<Event>, tid: Tid)
    requires var w := Run(InitialWorld(capacity), es); tid !in w.threads && !w.q.closing && w.q.next <= MAX_SEQUENCE
    ensures var w, w' := Run(InitialWorld(capacity), es), Run(InitialWorld(capacity), es + [ReserveBy(tid)]);
      && tid in w'.threads && w'.threads[tid] == Preparing(w.subs) && w.subs in w'.table
      && var s := w'.table[w.subs].sequence;
      && WaitLook(w'.q, s) == Blocked && s !in w'.q.pending && s !in w'.q.failures && s !in w'.q.nodes
  {
    var w0 := InitialWorld(capacity);
    ReachableInv(capacity, es);
    RunPendingLive(capacity, es);
    RunFailuresDone(w0, es);
    var fs := es + [ReserveBy(tid)];
    assert fs[..|fs| - 1] == es;
    assert Run(w0, fs) == Next(Run(w0, es), ReserveBy(tid));
    hide Run, InitialWorld, ControlInv, TableInv, NodesInv;
  }

  // A closed queue stays closed; it hands out nothing, accepts nothing and dispatches nothing.
  ghost predicate Frozen(w: World, w': World) {
    && w'.q.closing && w'.subs == w.subs && w'.published == w.published && |w'.log| <= |w.log|
    && w'.q.nodes.Keys <= w.q.nodes.Keys
  }

  lemma ClosedRegions(q: Queue)
    requires q.closing
    ensures Reserve(q) == (q, ReserveClosed) && EnterPump(q) == (q, false) && Pick(q) == (q.(pumping := false), None)
    ensures forall s, sub :: Publish(q, s, sub) == (q, PublishClosed)
    ensures forall s :: Abandon(q, s).closing && Abandon(q, s).nodes == q.nodes
    ensures forall s :: Park(q, s).closing && Park(q, s).nodes.Keys <= q.nodes.Keys
    ensures forall s, pre :: FailDispatch(q, s, pre).closing && FailDispatch(q, s, pre).nodes.Keys <= q.nodes.Keys
    ensures forall s, f :: Complete(q, s, f).0.closing && Complete(q, s, f).0.nodes.Keys <= q.nodes.Keys
  {
    hide RemoveFirst;
  }

  lemma ClosedSubmits(w: World, e: Event)
    requires w.q.closing && (e.ReserveBy? || e.PrepareThrows? || e.PublishBy? || e.AbandonBy?)
    ensures Frozen(w, Next(w, e))
  {
    ClosedRegions(w.q);
    hide Reserve, Publish, Abandon;
  }

  lemma ClosedThrows(w: World, tid: Tid, call: Call, t: nat, failure: Failure)
    requires w.q.closing
    ensures Frozen(w, DoThrow(w, tid, call, t, failure))
  {
    ClosedRegions(w.q);
    hide FailDispatch;
  }

  lemma ClosedPumps(w: World, e: Event)
    requires w.q.closing && (e.EnterBy? || e.PickBy? || e.DispatchReturns? || e.DispatchUnavailable? || e.DispatchThrows?)
    ensures Frozen(w, Next(w, e))
  {
    ClosedRegions(w.q);
    hide EnterPump, Pick, Park, StampOf, DoThrow;
    if e.DispatchThrows? && AtDispatch(w, e.tid) {
      ClosedThrows(w, e.tid, w.threads[e.tid].call, w.threads[e.tid].phase.target, e.failure);
    }
  }

  lemma ClosedFreezes(w: World, e: Event)
    requires w.q.closing
    ensures Frozen(w, Next(w, e))
  {
    if e.ReserveBy? || e.PrepareThrows? || e.PublishBy? || e.AbandonBy? {
      ClosedSubmits(w, e);
    } else if e.EnterBy? || e.PickBy? || e.DispatchReturns? || e.DispatchUnavailable? || e.DispatchThrows? {
      hide Next;
      ClosedPumps(w, e);
    } else {
      ClosedRegions(w.q);
      hide EnterPump, Complete;
    }
  }
}

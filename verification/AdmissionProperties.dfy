// What holds in every interleaving: the queue and its credits, rollbacks, final stages, skipped sequences.

module AdmissionProperties {
  import opened SizeT
  import opened AdmissionQueue
  import opened AdmissionProtocol
  import opened AdmissionInvariants
  import opened AdmissionSafety

  lemma {:induction false} RunInv(w: World, es: seq<Event>)
    requires Inv(w)
    ensures Inv(Run(w, es))
    decreases |es|
  {
    hide Inv, Next;
    if es != [] {
      RunInv(w, es[..|es| - 1]);
      StepPreserves(Run(w, es[..|es| - 1]), es[|es| - 1]);
    }
  }

  // Every interleaving of any number of threads, from a queue of any capacity.
  lemma ReachableInv(capacity: nat, es: seq<Event>)
    ensures Inv(Run(InitialWorld(capacity), es))
  {
    InitialInv(capacity);
    RunInv(InitialWorld(capacity), es);
  }

  // ---------------------------------------------------------------- the queue

  // The executing nodes are counted by the credits and fit the capacity.
  lemma {:induction false} PrefixCount(fifo: seq<nat>, n: nat)
    requires FifoDistinct(fifo) && n <= |fifo|
    ensures |set i | 0 <= i < n :: fifo[i]| == n
    decreases n
  {
    if n != 0 {
      PrefixCount(fifo, n - 1);
      assert (set i | 0 <= i < n :: fifo[i]) == (set i | 0 <= i < n - 1 :: fifo[i]) + {fifo[n - 1]};
    }
  }

  lemma CreditsCountExecuting(capacity: nat, es: seq<Event>)
    ensures var q := Run(InitialWorld(capacity), es).q;
      q.credits == |set s | s in q.nodes && q.nodes[s].executing| && q.credits <= q.capacity
  {
    ReachableInv(capacity, es);
    var q := Run(InitialWorld(capacity), es).q;
    PrefixCount(q.fifo, q.credits);
    hide InitialWorld, Run, Next;
    assert (set s | s in q.nodes && q.nodes[s].executing) == (set i | 0 <= i < q.credits :: q.fifo[i]) by {
      forall s | s in q.nodes && q.nodes[s].executing ensures s in set i | 0 <= i < q.credits :: q.fifo[i] {
        assert q.fifo[PlaceOf(q, s)] == s;
      }
      forall i | 0 <= i < q.credits ensures q.fifo[i] in q.nodes { assert q.fifo[i] in q.fifo; }
    }
  }

  // ---------------------------------------------------------------- rollbacks and final stages

  // A submission that threw ran its rollback exactly once, unless it had completed itself; one that
  // returned a token ran it at most once.
  lemma RollbacksRun(capacity: nat, es: seq<Event>, x: Sub)
    requires x in Run(InitialWorld(capacity), es).table
    ensures var r := Run(InitialWorld(capacity), es).table[x];
      (r.stage == Threw(false) ==> r.rollbacks == 1) && r.rollbacks <= 1
  {
    ReachableInv(capacity, es);
    assert SubmissionOk(Run(InitialWorld(capacity), es), x);
  }

  predicate FinishedIn(table: map<Sub, Submission>, x: Sub) {
    x in table && (table[x].stage.Returned? || table[x].stage.Threw?)
  }

  // Submission x is finished in w, and the event leaves its stage and sequence alone.
  ghost predicate StaysFinished(w: World, w': World, x: Sub) {
    FinishedIn(w.table, x) ==> x in w'.table && w'.table[x].stage == w.table[x].stage && w'.table[x].sequence == w.table[x].sequence
  }

  // No thread is inside a call of x when x is finished.
  ghost predicate NotInside(w: World, x: Sub) {
    && (x in w.table ==> x < w.subs)
    && (FinishedIn(w.table, x) ==> forall tid :: tid in w.threads ==> SubOf(w.threads[tid]) != Some(x))
  }

  lemma FinishedNotInside(w: World, x: Sub)
    requires Inv(w)
    ensures NotInside(w, x)
  {
    DataParts(w);
    hide QueueInv, NodesInv, DoneInv, SubmissionOk, PumpInv, TargetOk;
    forall tid | tid in w.threads && FinishedIn(w.table, x) ensures SubOf(w.threads[tid]) != Some(x) {
      assert ThreadOk(w, w.threads[tid]);
    }
  }

  lemma SubmitKeepsFinished(w: World, e: Event, x: Sub)
    requires NotInside(w, x) && (e.ReserveBy? || e.PrepareThrows? || e.PublishBy? || e.AbandonBy?)
    ensures StaysFinished(w, Next(w, e), x)
  {
    hide Publish, Abandon;
  }

  lemma LeaveKeepsFinished(w: World, e: Event, x: Sub)
    requires NotInside(w, x) && (e.EnterBy? || e.PickBy? || e.DispatchUnavailable?)
    ensures StaysFinished(w, Next(w, e), x)
  {
    hide EnterPump, Pick, Park, StampOf;
  }

  lemma ThrowKeepsFinished(w: World, e: Event, x: Sub)
    requires NotInside(w, x) && e.DispatchThrows?
    ensures StaysFinished(w, Next(w, e), x)
  {
    hide FailDispatch;
  }

  // The stage of a finished submission is final.
  lemma FinishedStays(w: World, e: Event, x: Sub)
    requires Inv(w)
    ensures StaysFinished(w, Next(w, e), x)
  {
    FinishedNotInside(w, x);
    if e.ReserveBy? || e.PrepareThrows? || e.PublishBy? || e.AbandonBy? {
      SubmitKeepsFinished(w, e, x);
    } else if e.EnterBy? || e.PickBy? || e.DispatchUnavailable? {
      LeaveKeepsFinished(w, e, x);
    } else if e.DispatchThrows? {
      ThrowKeepsFinished(w, e, x);
    } else {
      hide Inv, NotInside, Complete, DoReserve, DoPublish, DoUnwind, DoAbandonFailed, DoAbandonUnpublished, DoEnter, DoPick, DoUnavailable, DoThrow;
    }
  }

  // Holes stay holes and retained failures are never replaced.
  ghost predicate Grows(q: Queue, q': Queue) {
    && q.skipped <= q'.skipped
    && forall s :: s in q.failures ==> s in q'.failures && q'.failures[s] == q.failures[s]
  }

  lemma SubmitRegionsGrow(q: Queue)
    ensures Grows(q, q) && Grows(q, Reserve(q).0) && Grows(q, EnterPump(q).0)
    ensures forall s, sub :: Grows(q, Publish(q, s, sub).0)
    ensures forall s :: Grows(q, Abandon(q, s))
  {
  }

  lemma PumpRegionsGrow(q: Queue)
    ensures Grows(q, Pick(q).0)
    ensures forall s :: Grows(q, Park(q, s))
    ensures forall s, pre :: Grows(q, FailDispatch(q, s, pre))
    ensures forall s, f :: Grows(q, Complete(q, s, f).0)
    ensures forall s, f :: Grows(q, CommitFailure(q, s, f).0)
    ensures forall s, f :: Grows(q, RecordPostCompletionFailure(q, s, f))
  {
    hide Scan, RemoveFirst;
  }

  lemma StepGrows(w: World, e: Event)
    ensures Grows(w.q, Next(w, e).q)
  {
    SubmitRegionsGrow(w.q);
    PumpRegionsGrow(w.q);
    assert e.Close? ==> Grows(w.q, Next(w, e).q);
    hide Grows, Reserve, Publish, Abandon, EnterPump, Pick, Park, FailDispatch, Complete, CommitFailure, RecordPostCompletionFailure;
  }

  lemma {:induction false} RunGrows(w: World, es: seq<Event>)
    ensures Grows(w.q, Run(w, es).q)
    decreases |es|
  {
    hide Next;
    if es != [] {
      RunGrows(w, es[..|es| - 1]);
      StepGrows(Run(w, es[..|es| - 1]), es[|es| - 1]);
    }
  }

  lemma {:induction false} RunAppend(w: World, es: seq<Event>, fs: seq<Event>)
    ensures Run(w, es + fs) == Run(Run(w, es), fs)
    decreases |fs|
  {
    hide Next;
    if fs == [] {
      assert es + fs == es;
    } else {
      assert (es + fs)[..|es + fs| - 1] == es + fs[..|fs| - 1];
      RunAppend(w, es, fs[..|fs| - 1]);
    }
  }

  // Sequences are never reassigned, and only a reservation adds a submission, with the next sequence.
  ghost predicate SequencesKept(w: World, w': World) {
    && w.subs <= w'.subs
    && (forall x :: x in w.table ==> x in w'.table && w'.table[x].sequence == w.table[x].sequence)
    && (forall x :: x in w'.table && x !in w.table ==> w'.table[x].sequence == w.q.next)
  }

  lemma SubmitKeepsSequences(w: World, e: Event)
    requires w.subs !in w.table && (e.ReserveBy? || e.PrepareThrows? || e.PublishBy? || e.AbandonBy?)
    ensures SequencesKept(w, Next(w, e))
  {
    hide Publish, Abandon;
  }

  lemma LeaveKeepsSequences(w: World, e: Event)
    requires e.EnterBy? || e.PickBy? || e.DispatchUnavailable?
    ensures SequencesKept(w, Next(w, e))
  {
    hide EnterPump, Pick, Park, StampOf;
  }

  lemma ThrowKeepsSequences(w: World, tid: Tid, call: Call, t: nat, failure: Failure)
    ensures SequencesKept(w, DoThrow(w, tid, call, t, failure))
  {
    TakeKeepsSequences(w, t);
    hide FailDispatch, TakeRollback;
  }

  lemma InsideKeepsSequences(w: World, e: Event)
    requires e.DispatchReturns? || e.EnterNested? || e.DispatchThrows?
    ensures SequencesKept(w, Next(w, e))
  {
    hide DoThrow;
    if e.DispatchThrows? && AtDispatch(w, e.tid) {
      ThrowKeepsSequences(w, e.tid, w.threads[e.tid].call, w.threads[e.tid].phase.target, e.failure);
    }
  }

  lemma TakeKeepsSequences(w: World, t: nat)
    ensures SequencesKept(w, TakeRollback(w, t))
  {
  }

  lemma StepKeepsSequences(w: World, e: Event)
    requires w.subs !in w.table
    ensures SequencesKept(w, Next(w, e))
  {
    if e.ReserveBy? || e.PrepareThrows? || e.PublishBy? || e.AbandonBy? {
      SubmitKeepsSequences(w, e);
    } else if e.CompleteFailed? || e.CompleteBy? || e.CommitFor? || e.FailAfterCompletion? || e.Close? {
      hide Complete, CommitFailure, RecordPostCompletionFailure;
    } else {
      hide Next;
      if e.EnterBy? || e.PickBy? || e.DispatchUnavailable? { LeaveKeepsSequences(w, e); } else { InsideKeepsSequences(w, e); }
    }
  }

  // A sequence skipped at one point of a run is handed out to no later submission.
  lemma {:induction false} SkippedNotReissued(capacity: nat, es: seq<Event>, fs: seq<Event>, s: nat, x: Sub)
    requires s in Run(InitialWorld(capacity), es).q.skipped && x !in Run(InitialWorld(capacity), es).table
    requires x in Run(InitialWorld(capacity), es + fs).table
    ensures Run(InitialWorld(capacity), es + fs).table[x].sequence != s
    decreases |fs|
  {
    var w0 := InitialWorld(capacity);
    hide Next, ControlInv, NodesInv, DoneInv, SubmissionOk, InitialWorld;
    assert es + [] == es;
    if fs != [] {
      var gs := fs[..|fs| - 1];
      assert (es + fs)[..|es + fs| - 1] == es + gs;
      var w := Run(w0, es + gs);
      ReachableInv(capacity, es + gs);
      RunAppend(w0, es, gs);
      RunGrows(Run(w0, es), gs);
      StepKeepsSequences(w, fs[|fs| - 1]);
      if x in w.table { SkippedNotReissued(capacity, es, gs, s, x); }
    }
  }
}

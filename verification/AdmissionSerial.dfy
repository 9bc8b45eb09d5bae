// Serial submitters: when no two submit calls overlap, nothing steals, the admission order is the
// order of the sequences, and wait reports exactly what happened if and only if completions keep that order.

module AdmissionSerial {
  import opened SizeT
  import opened AdmissionQueue
  import opened AdmissionProtocol
  import opened AdmissionInvariants
  import opened AdmissionSafety
  import opened AdmissionAccounting
  import opened AdmissionWait

  // A submission starts only when no other submit call is in progress.
  predicate Serial(w: World, e: Event) {
    e.ReserveBy? ==> forall a :: a in w.threads ==> SubOf(w.threads[a]).None?
  }

  predicate FailedCall(pc: Pc) {
    pc.Pumping? && pc.call.Submitter? && pc.call.failed
  }

  ghost predicate OneSubmitter(w: World) {
    forall a, b :: a in w.threads && b in w.threads && SubOf(w.threads[a]).Some? && SubOf(w.threads[b]).Some? ==> a == b
  }

  // The submission in progress holds the newest sequence, or has given it back or completed it.
  ghost predicate SubmitterOk(w: World, pc: Pc) {
    SubOf(pc).Some? && SubOf(pc).value in w.table ==>
      var s := w.table[SubOf(pc).value].sequence;
      if FailedCall(pc) then s !in w.q.nodes && (s >= w.q.next || s in w.done) else s + 1 == w.q.next
  }

  ghost predicate OwnedBy(w: World, x: Sub) {
    exists a :: a in w.threads && SubOf(w.threads[a]) == Some(x) && !FailedCall(w.threads[a])
  }

  ghost predicate HeldOwned(w: World) {
    forall x :: x in w.table && w.table[x].stage.Held? ==> OwnedBy(w, x)
  }

  ghost predicate HeldSequence(w: World, s: nat) {
    exists x :: x in w.table && w.table[x].stage.Held? && w.table[x].sequence == s
  }

  // Every reserved sequence is accounted for; the newest completion is below the counter.
  ghost predicate Dense(w: World) {
    && w.q.skipped == {}
    && (forall s :: 0 < s < w.q.next ==> s in w.q.nodes || s in w.done || HeldSequence(w, s))
    && w.q.completed < w.q.next && (w.q.completed == 0 || w.q.completed in w.done)
  }

  predicate Sorted(fifo: seq<nat>) {
    forall i, j :: 0 <= i < j < |fifo| ==> fifo[i] < fifo[j]
  }

  ghost predicate SerialInv(w: World) {
    && OneSubmitter(w) && HeldOwned(w) && Dense(w) && Sorted(w.q.fifo)
    && forall a :: a in w.threads ==> SubmitterOk(w, w.threads[a])
  }

  // A failed call finds no node under its old sequence, so its throws are never mistaken.
  lemma SerialNeverSteals(w: World, e: Event)
    requires Inv(w) && SerialInv(w)
    ensures !Steals(w, e)
  {
    if e.DispatchThrows? && AtDispatch(w, e.tid) {
      assert ThreadOk(w, w.threads[e.tid]) && SubmitterOk(w, w.threads[e.tid]);
    }
  }

  // ---------------------------------------------------------------- events that keep sequences where they are

  predicate Holder(w: World, a: Tid) {
    a in w.threads && SubOf(w.threads[a]).Some? && SubOf(w.threads[a]).value in w.table && w.table[SubOf(w.threads[a]).value].stage.Held?
  }

  predicate SameCall(pc: Pc, pc': Pc) {
    SubOf(pc') == SubOf(pc) && (FailedCall(pc') <==> FailedCall(pc))
  }

  // Threads keep their submission and whether it failed, or leave; no record starts or stops being held.
  ghost predicate CalmStep(w: World, w': World) {
    && (forall a :: a in w'.threads ==> (a in w.threads && SameCall(w.threads[a], w'.threads[a])) || SubOf(w'.threads[a]).None?)
    && (forall x :: x in w'.table <==> x in w.table)
    && (forall x :: x in w.table ==>
          w'.table[x].sequence == w.table[x].sequence && (w'.table[x].stage.Held? <==> w.table[x].stage.Held?))
    && (forall a :: Holder(w, a) ==> a in w'.threads && SameCall(w.threads[a], w'.threads[a]))
  }

  lemma CalmThreads(w: World, w': World)
    requires OneSubmitter(w) && HeldOwned(w) && CalmStep(w, w')
    ensures OneSubmitter(w') && HeldOwned(w')
  {
    forall x | x in w'.table && w'.table[x].stage.Held? ensures OwnedBy(w', x) {
      assert OwnedBy(w, x);
      var a :| a in w.threads && SubOf(w.threads[a]) == Some(x) && !FailedCall(w.threads[a]);
      assert a in w'.threads && SubOf(w'.threads[a]) == Some(x);
    }
  }

  // Sequences move at most from the nodes to the completed ones.
  ghost predicate CalmQueue(w: World, w': World) {
    && w'.q.next == w.q.next && w'.q.skipped == w.q.skipped && w.done <= w'.done
    && (forall s :: s in w.q.nodes ==> s in w'.q.nodes || s in w'.done)
    && (forall s :: s in w'.q.nodes ==> s in w.q.nodes)
    && w'.q.completed < w'.q.next && (w'.q.completed == 0 || w'.q.completed in w'.done)
  }

  lemma CalmSerial(w: World, w': World)
    requires SerialInv(w) && CalmStep(w, w') && CalmQueue(w, w') && Sorted(w'.q.fifo)
    ensures SerialInv(w')
  {
    CalmThreads(w, w');
    hide CalmStep, CalmQueue, OneSubmitter, HeldOwned;
    CalmDense(w, w');
    forall a | a in w'.threads ensures SubmitterOk(w', w'.threads[a]) {
      CalmSubmitter(w, w', a);
    }
  }

  lemma CalmDense(w: World, w': World)
    requires Dense(w) && CalmStep(w, w') && CalmQueue(w, w')
    ensures Dense(w')
  {
    forall s | 0 < s < w'.q.next ensures s in w'.q.nodes || s in w'.done || HeldSequence(w', s) {
      if HeldSequence(w, s) {
        var x :| x in w.table && w.table[x].stage.Held? && w.table[x].sequence == s;
        assert x in w'.table && w'.table[x].stage.Held?;
      }
    }
  }

  lemma CalmSubmitter(w: World, w': World, a: Tid)
    requires a in w'.threads && CalmStep(w, w') && CalmQueue(w, w')
    requires a in w.threads ==> SubmitterOk(w, w.threads[a])
    ensures SubmitterOk(w', w'.threads[a])
  {
  }

  lemma SortedErase(fifo: seq<nat>, s: nat)
    requires Sorted(fifo)
    ensures Sorted(RemoveFirst(fifo, s))
  {
    if s in fifo {
      var i :| 0 <= i < |fifo| && fifo[i] == s;
      RemovedPlaces(fifo, s, i);
    } else {
      RemoveFirstAt(fifo, s, |fifo|);
    }
  }

  lemma UnwindCalm(w: World, tid: Tid)
    requires SerialInv(w) && AtPrepare(w, tid)
    ensures SerialInv(DoUnwind(w, tid, w.threads[tid].sub))
  {
    var w' := DoUnwind(w, tid, w.threads[tid].sub);
    assert CalmQueue(w, w') && CalmStep(w, w');
    hide CalmQueue, CalmStep, DoUnwind;
    CalmSerial(w, w') by { hide SerialInv; }
  }

  // Moving on inside the pump is calm, and so is leaving a call.
  lemma GotoCalm(w: World, w': World, tid: Tid, phase: Phase)
    requires tid in w.threads && w.threads[tid].Pumping?
    requires w'.threads == w.threads[tid := Pumping(w.threads[tid].call, phase)] && w'.table == w.table
    ensures CalmStep(w, w')
  {
  }

  lemma LeaveCalm(w: World, w': World, tid: Tid)
    requires ThreadsInv(w) && tid in w.threads && w.threads[tid].Pumping? && !w.threads[tid].phase.RolledBack?
    requires w'.threads == w.threads - {tid} && w'.table == Leave(w, tid, w.threads[tid].call).table
    ensures CalmStep(w, w')
  {
    assert ThreadOk(w, w.threads[tid]);
    hide ThreadsInv;
  }

  lemma SameNodesCalm(w: World, w': World)
    requires Dense(w) && SameNodes(w.q, w'.q) && w'.done == w.done && w'.q.completed == w.q.completed
    ensures CalmQueue(w, w')
  {
  }

  // The queue of w' is calm, and its order sorted.
  lemma CompleteCalm(w: World, w': World, s: nat, f: Option<Failure>)
    requires QueueInv(w.q) && Dense(w) && Sorted(w.q.fifo)
    requires (w'.q == w.q && w'.done == w.done) || (Complete(w.q, s, f).1.Completed? && w'.q == Complete(w.q, s, f).0 && w'.done == w.done + {s})
    ensures CalmQueue(w, w') && Sorted(w'.q.fifo)
  {
    SortedErase(w.q.fifo, s);
    hide RemoveFirst, QueueInv;
  }

  lemma EnterCalm(w: World, tid: Tid)
    requires Inv(w) && SerialInv(w) && In(w, tid, (p: Phase) => p.Entering?)
    ensures SerialInv(DoEnter(w, tid, w.threads[tid].call))
  {
    var call := w.threads[tid].call;
    var w' := DoEnter(w, tid, call);
    assert Dense(w) && Sorted(w.q.fifo) && ThreadsInv(w);
    LeaveEffect(w, tid, call);
    hide Inv, SerialInv, Dense, Sorted, CalmQueue, CalmStep, ThreadsInv, Leave;
    SameNodesCalm(w, w');
    if EnterPump(w.q).1 { GotoCalm(w, w', tid, Scanning); } else { LeaveCalm(w, w', tid); }
    hide DoEnter;
    CalmSerial(w, w');
  }

  lemma PickNoneCalm(w: World, tid: Tid)
    requires Inv(w) && SerialInv(w) && In(w, tid, (p: Phase) => p.Scanning?) && Pick(w.q).1.None?
    ensures SerialInv(DoPick(w, tid, w.threads[tid].call))
  {
    var w' := DoPick(w, tid, w.threads[tid].call);
    PickQueue(w.q);
    assert Dense(w) && Sorted(w.q.fifo) && ThreadsInv(w);
    hide Inv, QueueInv, SerialInv, Dense, Sorted, CalmQueue, CalmStep, Pick, ThreadsInv, SetStage;
    SameNodesCalm(w, w');
    LeaveCalm(w, w', tid);
    CalmSerial(w, w');
  }

  lemma PickSomeCalm(w: World, tid: Tid)
    requires Inv(w) && SerialInv(w) && In(w, tid, (p: Phase) => p.Scanning?) && Pick(w.q).1.Some?
    ensures SerialInv(DoPick(w, tid, w.threads[tid].call))
  {
    var w' := DoPick(w, tid, w.threads[tid].call);
    PickQueue(w.q);
    assert Dense(w) && Sorted(w.q.fifo);
    hide Inv, QueueInv, SerialInv, Dense, Sorted, CalmQueue, CalmStep, Pick;
    SameNodesCalm(w, w');
    GotoCalm(w, w', tid, Dispatching(Pick(w.q).1.value));
    CalmSerial(w, w');
  }

  lemma UnavailableCalmQueue(w: World, tid: Tid, call: Call, t: nat)
    requires Dense(w)
    ensures var w' := DoUnavailable(w, tid, call, t); CalmQueue(w, w') && w'.q.fifo == w.q.fifo
  {
    UnavailableEffect(w, tid, call, t);
    hide CalmQueue, Dense, Leave;
    SameNodesCalm(w, DoUnavailable(w, tid, call, t));
  }

  lemma UnavailableCalm(w: World, tid: Tid)
    requires Inv(w) && SerialInv(w) && AtDispatch(w, tid)
    ensures SerialInv(DoUnavailable(w, tid, w.threads[tid].call, w.threads[tid].phase.target))
  {
    var call, t := w.threads[tid].call, w.threads[tid].phase.target;
    var w' := DoUnavailable(w, tid, call, t);
    assert Dense(w) && Sorted(w.q.fifo) && ThreadsInv(w);
    hide Inv, SerialInv, Dense, Sorted, CalmQueue, CalmStep, DoUnavailable, Park, Leave, ThreadsInv;
    UnavailableEffect(w, tid, call, t);
    UnavailableCalmQueue(w, tid, call, t);
    LeaveCalm(w, w', tid);
    CalmSerial(w, w');
  }

  lemma CompleteFailedCalm(w: World, tid: Tid)
    requires Inv(w) && SerialInv(w) && In(w, tid, (p: Phase) => p.Completing?)
    ensures SerialInv(DoCompleteFailed(w, tid, w.threads[tid].call, w.threads[tid].phase.target, w.threads[tid].phase.failure))
  {
    var t, failure := w.threads[tid].phase.target, w.threads[tid].phase.failure;
    var w' := DoCompleteFailed(w, tid, w.threads[tid].call, t, failure);
    assert QueueInv(w.q) && Dense(w) && Sorted(w.q.fifo);
    hide Inv, QueueInv, SerialInv, Dense, Sorted, CalmQueue, CalmStep, Complete;
    GotoCalm(w, w', tid, w'.threads[tid].phase);
    CompleteCalm(w, w', t, Some(failure));
    CalmSerial(w, w');
  }

  // Returning from a dispatch, or from the nested pump.
  lemma GotoScanningCalm(w: World, tid: Tid)
    requires SerialInv(w) && tid in w.threads && w.threads[tid].Pumping?
    ensures SerialInv(Goto(w, tid, Pumping(w.threads[tid].call, Scanning)))
  {
    var w' := Goto(w, tid, Pumping(w.threads[tid].call, Scanning));
    SameNodesCalm(w, w');
    hide SerialInv, CalmQueue, CalmStep;
    GotoCalm(w, w', tid, Scanning);
    CalmSerial(w, w') by { assert Sorted(w.q.fifo) by { SortedOf(w); } }
  }

  lemma SortedOf(w: World)
    requires SerialInv(w)
    ensures Sorted(w.q.fifo)
  {
  }

  lemma CompleterCalm(w: World, w': World, tid: Tid)
    requires tid !in w.threads && w'.table == w.table
    requires w'.threads == w.threads || w'.threads == w.threads[tid := Pumping(Completer, Entering)]
    ensures CalmStep(w, w')
  {
  }

  lemma CompleteByCalm(w: World, tid: Tid, s: nat, f: Option<Failure>)
    requires Inv(w) && SerialInv(w) && tid !in w.threads
    ensures SerialInv(DoComplete(w, tid, s, f))
  {
    var w' := DoComplete(w, tid, s, f);
    assert QueueInv(w.q) && Dense(w) && Sorted(w.q.fifo);
    hide Inv, QueueInv, SerialInv, Dense, Sorted, CalmQueue, CalmStep, Complete;
    CompleterCalm(w, w', tid);
    CompleteCalm(w, w', s, f);
    CalmSerial(w, w');
  }

  lemma FlagsCalm(w: World, w': World)
    requires SerialInv(w) && w' == w.(q := w'.q)
    requires w'.q == w.q.(closing := w'.q.closing, failures := w'.q.failures, pending := w'.q.pending)
    ensures SerialInv(w')
  {
    assert CalmQueue(w, w') && CalmStep(w, w');
    hide CalmQueue, CalmStep;
    CalmSerial(w, w');
  }

  // Another submission's dispatch throws: nothing moves.
  lemma FailOtherCalm(w: World, tid: Tid, failure: Failure)
    requires SerialInv(w) && AtDispatch(w, tid) && !Preaccepts(w.threads[tid].call, w.threads[tid].phase.target)
    ensures SerialInv(DoThrow(w, tid, w.threads[tid].call, w.threads[tid].phase.target, failure))
  {
    var w' := DoThrow(w, tid, w.threads[tid].call, w.threads[tid].phase.target, failure);
    assert CalmQueue(w, w') && CalmStep(w, w');
    hide CalmQueue, CalmStep, DoThrow;
    CalmSerial(w, w');
  }

  // ---------------------------------------------------------------- the submitting call's own events

  // A new call starts when no submission is held: it gets the next sequence.
  lemma ReserveSerial(w: World, tid: Tid)
    requires Inv(w) && SerialInv(w) && tid !in w.threads && Serial(w, ReserveBy(tid))
    ensures SerialInv(DoReserve(w, tid))
  {
    var w' := DoReserve(w, tid);
    assert w.subs !in w.table && forall x :: x in w.table ==> !w.table[x].stage.Held? by {
      hide ControlInv, QueueInv, NodesInv, DoneInv, Dense;
      forall x | x in w.table ensures !w.table[x].stage.Held? { assert w.table[x].stage.Held? ==> OwnedBy(w, x); }
    }
    hide Inv;
    if Reserve(w.q).1.Reserved? {
      assert w'.table[w.subs].stage.Held? && HeldSequence(w', w.q.next);
      assert tid in w'.threads && OwnedBy(w', w.subs);
    }
  }

  // The held submission of the only submitting thread is the only held one.
  lemma OnlyHeld(w: World, tid: Tid, x: Sub)
    requires SerialInv(w) && tid in w.threads && SubOf(w.threads[tid]) == Some(x)
    ensures forall y :: y in w.table && w.table[y].stage.Held? ==> y == x
  {
    hide Dense;
    forall y | y in w.table && w.table[y].stage.Held? ensures y == x {
      assert OwnedBy(w, y);
      var a :| a in w.threads && SubOf(w.threads[a]) == Some(y);
    }
  }

  // The only submitting thread acts on its own record x: what is left to check.
  lemma OwnSerial(w: World, w': World, tid: Tid, x: Sub)
    requires SerialInv(w) && tid in w.threads && SubOf(w.threads[tid]) == Some(x)
    requires OthersKept(w, w', tid) && RecordsKept(w, w', x) && (tid in w'.threads ==> SubOf(w'.threads[tid]) == Some(x))
    requires x in w'.table && w'.table[x].stage.Held? ==> tid in w'.threads && !FailedCall(w'.threads[tid])
    requires tid in w'.threads ==> SubmitterOk(w', w'.threads[tid])
    requires Dense(w') && Sorted(w'.q.fifo)
    ensures SerialInv(w')
  {
    OnlyHeld(w, tid, x);
    hide Dense, Sorted, SubmitterOk;
    forall y | y in w'.table && w'.table[y].stage.Held? ensures OwnedBy(w', y) {}
    forall a | a in w'.threads ensures SubmitterOk(w', w'.threads[a]) {
      if a != tid { NoSubmission(w', w'.threads[a]); }
    }
  }

  lemma NoSubmission(w: World, pc: Pc)
    requires SubOf(pc).None?
    ensures SubmitterOk(w, pc)
  {
  }

  lemma PublishSerial(w: World, tid: Tid)
    requires Inv(w) && SerialInv(w) && AtPrepare(w, tid)
    requires Publish(w.q, w.table[w.threads[tid].sub].sequence, w.threads[tid].sub).1.Published?
    ensures SerialInv(DoPublish(w, tid, w.threads[tid].sub))
  {
    var x := w.threads[tid].sub;
    var s, w' := w.table[x].sequence, DoPublish(w, tid, x);
    assert SubmitterOk(w, w.threads[tid]);
    assert Sorted(w'.q.fifo) by {
      FifoBelow(w.q);
      assert s !in w.q.nodes && w'.q.fifo == w.q.fifo + [s];
    }
    assert Dense(w') by { PublishDense(w, w', x); }
    hide Inv, Dense, Sorted, SerialInv;
    OwnSerial(w, w', tid, x);
  }

  lemma FifoBelow(q: Queue)
    requires QueueInv(q)
    ensures forall i :: 0 <= i < |q.fifo| ==> q.fifo[i] in q.nodes && q.fifo[i] < q.next
  {
    forall i | 0 <= i < |q.fifo| ensures q.fifo[i] in q.nodes { assert q.fifo[i] in q.fifo; }
  }

  // The held sequences of w are x's, or still held in w'.
  lemma PublishDense(w: World, w': World, x: Sub)
    requires Dense(w) && x in w.table && RecordsKept(w, w', x) && w'.done == w.done
    requires w'.q.next == w.q.next && w'.q.skipped == w.q.skipped && w'.q.completed == w.q.completed
    requires forall s :: s in w.q.nodes || s == w.table[x].sequence ==> s in w'.q.nodes
    ensures Dense(w')
  {
    forall s | 0 < s < w'.q.next ensures s in w'.q.nodes || s in w'.done || HeldSequence(w', s) {
      if HeldSequence(w, s) && s != w.table[x].sequence {
        var y :| y in w.table && w.table[y].stage.Held? && w.table[y].sequence == s;
        assert y in w'.table && w'.table[y].stage.Held?;
      }
    }
  }

  // Giving back the newest sequence always rewinds the counter.
  lemma AbandonRewinds(w: World, x: Sub)
    requires Inv(w) && Dense(w) && x in w.table && w.table[x].stage.Held? && w.table[x].sequence + 1 == w.q.next
    ensures Abandon(w.q, w.table[x].sequence)
         == w.q.(pending := w.q.pending - {w.table[x].sequence}, next := w.q.next - 1)
    ensures w.q.completed < w.table[x].sequence
  {
    hide ControlInv, QueueInv, NodesInv;
    assert SubmissionOk(w, x);
  }

  lemma AbandonDense(w: World, w': World, tid: Tid, x: Sub)
    requires Inv(w) && SerialInv(w) && tid in w.threads && SubOf(w.threads[tid]) == Some(x) && !FailedCall(w.threads[tid])
    requires x in w.table && w.table[x].stage.Held? && w'.q == Abandon(w.q, w.table[x].sequence) && w'.done == w.done
    ensures Dense(w') && Sorted(w'.q.fifo) && w.table[x].sequence >= w'.q.next && w.table[x].sequence !in w'.q.nodes
  {
    assert SubmitterOk(w, w.threads[tid]);
    OnlyHeld(w, tid, x);
    AbandonRewinds(w, x);
    assert w.table[x].sequence !in w.q.nodes by { hide ControlInv; assert SubmissionOk(w, x); }
    hide Inv, Abandon;
    forall s | 0 < s < w'.q.next ensures s in w'.q.nodes || s in w'.done {
      assert !HeldSequence(w, s);
    }
  }

  lemma AbandonUnpublishedSerial(w: World, tid: Tid)
    requires Inv(w) && SerialInv(w) && AtUnwind(w, tid)
    ensures SerialInv(DoAbandonUnpublished(w, tid, w.threads[tid].sub))
  {
    var x := w.threads[tid].sub;
    var w' := DoAbandonUnpublished(w, tid, x);
    assert ThreadOk(w, w.threads[tid]);
    AbandonDense(w, w', tid, x);
    hide Inv, Dense, Sorted, SerialInv, Abandon;
    OwnSerial(w, w', tid, x);
  }

  lemma AbandonFailedSerial(w: World, tid: Tid)
    requires Inv(w) && SerialInv(w) && In(w, tid, (p: Phase) => p.RolledBack?) && w.threads[tid].call.Submitter?
    ensures SerialInv(DoAbandonFailed(w, tid, w.threads[tid].call))
  {
    var call := w.threads[tid].call;
    var w' := DoAbandonFailed(w, tid, call);
    assert ThreadOk(w, w.threads[tid]);
    AbandonDense(w, w', tid, call.sub);
    hide Inv, Dense, Sorted, SerialInv, Abandon;
    OwnSerial(w, w', tid, call.sub);
  }

  // A rejected submission holds the newest sequence again.
  lemma RejectSerial(w: World, tid: Tid, failure: Failure)
    requires Inv(w) && SerialInv(w) && Accounted(w) && AtDispatch(w, tid) && Preaccepts(w.threads[tid].call, w.threads[tid].phase.target)
    requires w.threads[tid].phase.target in w.q.nodes && !w.threads[tid].call.failed
    ensures SerialInv(DoThrow(w, tid, w.threads[tid].call, w.threads[tid].phase.target, failure))
  {
    var t, call := w.threads[tid].phase.target, w.threads[tid].call;
    var w' := DoThrow(w, tid, call, t, failure);
    ThrownNode(w, tid, t);
    assert OwnsNode(w, call.sub);
    assert ThreadOk(w, w.threads[tid]) && SubmitterOk(w, w.threads[tid]);
    SortedErase(w.q.fifo, t);
    assert Dense(w) && Sorted(w.q.fifo);
    hide Inv, SerialInv, RemoveFirst, Sorted, Dense;
    RejectDense(w, w', call.sub, t);
    OwnSerial(w, w', tid, call.sub);
  }

  lemma RejectDense(w: World, w': World, x: Sub, t: nat)
    requires Dense(w) && x in w.table && x in w'.table && RecordsKept(w, w', x) && w'.done == w.done
    requires w'.q.next == w.q.next && w'.q.skipped == w.q.skipped && w'.q.completed == w.q.completed
    requires w'.q.nodes == w.q.nodes - {t} && w'.table[x].stage.Held? && w'.table[x].sequence == t
    requires !w.table[x].stage.Held?
    ensures Dense(w')
  {
    assert HeldSequence(w', t);
    forall s | 0 < s < w'.q.next ensures s in w'.q.nodes || s in w'.done || HeldSequence(w', s) {
      if HeldSequence(w, s) {
        var y :| y in w.table && w.table[y].stage.Held? && w.table[y].sequence == s;
        assert y in w'.table && w'.table[y].stage.Held?;
      }
    }
  }

  lemma SelfCompletedSerial(w: World, tid: Tid, failure: Failure)
    requires Inv(w) && SerialInv(w) && AtDispatch(w, tid) && Preaccepts(w.threads[tid].call, w.threads[tid].phase.target)
    requires w.threads[tid].phase.target !in w.q.nodes
    ensures SerialInv(DoThrow(w, tid, w.threads[tid].call, w.threads[tid].phase.target, failure))
  {
    var t, call := w.threads[tid].phase.target, w.threads[tid].call;
    var w' := DoThrow(w, tid, call, t, failure);
    assert ThreadOk(w, w.threads[tid]) && TargetOk(w, w.threads[tid]) && SubmitterOk(w, w.threads[tid]);
    assert Dense(w) && Sorted(w.q.fifo);
    hide Inv, SerialInv, Sorted, Dense;
    SelfCompletedDense(w, w', call.sub);
    OwnSerial(w, w', tid, call.sub);
  }

  lemma SelfCompletedDense(w: World, w': World, x: Sub)
    requires Dense(w) && x in w.table && !w.table[x].stage.Held? && RecordsKept(w, w', x) && w'.done == w.done && w'.q == w.q
    ensures Dense(w')
  {
    forall s | HeldSequence(w, s) ensures HeldSequence(w', s) {
      var y :| y in w.table && w.table[y].stage.Held? && w.table[y].sequence == s;
      assert y in w'.table && w'.table[y].stage.Held?;
    }
  }

  // ---------------------------------------------------------------- runs of serial submitters

  lemma ThrowSerial(w: World, tid: Tid, failure: Failure)
    requires Inv(w) && SerialInv(w) && Accounted(w) && AtDispatch(w, tid)
    ensures SerialInv(Next(w, DispatchThrows(tid, failure)))
  {
    SerialNeverSteals(w, DispatchThrows(tid, failure));
    var call, t := w.threads[tid].call, w.threads[tid].phase.target;
    hide Inv, SerialInv, DoThrow;
    if !Preaccepts(call, t) {
      FailOtherCalm(w, tid, failure);
    } else if t in w.q.nodes {
      RejectSerial(w, tid, failure);
    } else {
      SelfCompletedSerial(w, tid, failure);
    }
  }

  lemma SubmitSerial(w: World, e: Event)
    requires Inv(w) && SerialInv(w) && Serial(w, e)
    requires e.ReserveBy? || e.PrepareThrows? || e.PublishBy? || e.AbandonBy?
    ensures SerialInv(Next(w, e))
  {
    hide Inv, SerialInv, DoReserve, DoUnwind, DoAbandonFailed, DoAbandonUnpublished, DoPublish;
    if e.ReserveBy? {
      if e.tid !in w.threads { ReserveSerial(w, e.tid); }
    } else if e.PrepareThrows? {
      if AtPrepare(w, e.tid) { UnwindCalm(w, e.tid); }
    } else if e.PublishBy? {
      if AtPrepare(w, e.tid) {
        var x := w.threads[e.tid].sub;
        if Publish(w.q, w.table[x].sequence, x).1.Published? {
          PublishSerial(w, e.tid);
        } else {
          UnpublishedUnwinds(w, e.tid);
          UnwindCalm(w, e.tid);
        }
      }
    } else if AtUnwind(w, e.tid) {
      AbandonUnpublishedSerial(w, e.tid);
    } else if In(w, e.tid, (p: Phase) => p.RolledBack?) && w.threads[e.tid].call.Submitter? {
      AbandonFailedSerial(w, e.tid);
    }
  }

  lemma PumpSerial(w: World, e: Event)
    requires Inv(w) && SerialInv(w)
    requires e.EnterBy? || e.PickBy? || e.DispatchReturns? || e.DispatchUnavailable? || e.CompleteFailed? || e.EnterNested?
    ensures SerialInv(Next(w, e))
  {
    hide Inv, SerialInv, DoPick, DoEnter, DoUnavailable, DoCompleteFailed;
    if e.EnterBy? && In(w, e.tid, (p: Phase) => p.Entering?) {
      EnterCalm(w, e.tid);
    } else if e.PickBy? && In(w, e.tid, (p: Phase) => p.Scanning?) {
      if Pick(w.q).1.None? { PickNoneCalm(w, e.tid); } else { PickSomeCalm(w, e.tid); }
    } else if e.DispatchReturns? && AtDispatch(w, e.tid) {
      GotoScanningCalm(w, e.tid);
    } else if e.DispatchUnavailable? && AtDispatch(w, e.tid) {
      UnavailableCalm(w, e.tid);
    } else if e.CompleteFailed? && In(w, e.tid, (p: Phase) => p.Completing?) {
      CompleteFailedCalm(w, e.tid);
    } else if e.EnterNested? && In(w, e.tid, (p: Phase) => p.Nested?) {
      GotoScanningCalm(w, e.tid);
    }
  }

  lemma StepSerial(w: World, e: Event)
    requires Inv(w) && SerialInv(w) && Accounted(w) && Serial(w, e)
    ensures SerialInv(Next(w, e))
  {
    hide Inv, SerialInv, Accounted;
    match e
    case ReserveBy(_) => SubmitSerial(w, e);
    case PrepareThrows(_) => SubmitSerial(w, e);
    case PublishBy(_) => SubmitSerial(w, e);
    case AbandonBy(_) => SubmitSerial(w, e);
    case DispatchThrows(tid, failure) => if AtDispatch(w, tid) { ThrowSerial(w, tid, failure); }
    case CompleteBy(tid, s, outcome) => if tid !in w.threads { CompleteByCalm(w, tid, s, outcome); }
    case CommitFor(s, failure) => FlagsCalm(w, Next(w, e));
    case FailAfterCompletion(s, failure) => FlagsCalm(w, Next(w, e));
    case Close => FlagsCalm(w, Next(w, e));
    case _ => PumpSerial(w, e);
  }

  // Every submission of the run is serial.
  ghost predicate SerialRun(w: World, es: seq<Event>) {
    forall k: nat :: k < |es| ==> Serial(Run(w, es[..k]), es[k])
  }

  lemma SerialPrefix(w: World, es: seq<Event>, n: nat)
    requires n <= |es| && SerialRun(w, es)
    ensures SerialRun(w, es[..n])
  {
    hide Serial;
    forall k: nat | k < n ensures Serial(Run(w, es[..n][..k]), es[..n][k]) {
      assert es[..n][..k] == es[..k];
      assert Serial(Run(w, es[..k]), es[k]);
    }
  }

  lemma InitialSerial(capacity: nat)
    ensures SerialInv(InitialWorld(capacity))
  {
  }

  lemma {:induction false} RunSerial(capacity: nat, es: seq<Event>)
    requires SerialRun(InitialWorld(capacity), es)
    ensures Inv(Run(InitialWorld(capacity), es)) && SerialInv(Run(InitialWorld(capacity), es)) && Accounted(Run(InitialWorld(capacity), es))
    decreases |es|
  {
    hide Inv, SerialInv, Accounted, Next, Serial, InitialWorld;
    if es == [] {
      InitialInv(capacity);
      InitialPlaced(capacity);
      InitialSerial(capacity);
    } else {
      var w := Run(InitialWorld(capacity), es[..|es| - 1]);
      SerialPrefix(InitialWorld(capacity), es, |es| - 1);
      RunSerial(capacity, es[..|es| - 1]);
      SerialNeverSteals(w, es[|es| - 1]);
      AccountedUnlessStolen(w, es[|es| - 1]);
      StepPreserves(w, es[|es| - 1]);
      assert Serial(w, es[|es| - 1]);
      StepSerial(w, es[|es| - 1]);
    }
  }

  // Without overlapping submit calls no event ever steals, so every guarantee of the protocol holds.
  lemma SerialTheftless(capacity: nat, es: seq<Event>)
    requires SerialRun(InitialWorld(capacity), es)
    ensures Theftless(InitialWorld(capacity), es)
  {
    hide Inv, SerialInv, Accounted, Next, Serial, InitialWorld, Steals, SerialRun;
    forall k: nat | k < |es| ensures !Steals(Run(InitialWorld(capacity), es[..k]), es[k]) {
      SerialPrefix(InitialWorld(capacity), es, k);
      RunSerial(capacity, es[..k]);
      SerialNeverSteals(Run(InitialWorld(capacity), es[..k]), es[k]);
    }
  }

  // ---------------------------------------------------------------- completions in admission order

  // A completion of a node is the completion of the oldest one, from outside and from the pump alike.
  predicate InOrder(w: World, e: Event) {
    && (e.CompleteBy? && e.tid !in w.threads && e.sequence in w.q.nodes ==> w.q.fifo != [] && w.q.fifo[0] == e.sequence)
    && (e.CompleteFailed? && In(w, e.tid, (p: Phase) => p.Completing?) && w.threads[e.tid].phase.target in w.q.nodes ==>
          w.q.fifo != [] && w.q.fifo[0] == w.threads[e.tid].phase.target)
  }

  // The newest completion is below every node, and no completed sequence is above it.
  ghost predicate Frontier(w: World) {
    && (forall s :: s in w.q.nodes ==> w.q.completed < s)
    && (forall s :: s in w.done ==> s <= w.q.completed)
  }

  lemma CompleteFrontier(w: World, s: nat, f: Option<Failure>)
    requires QueueInv(w.q) && SerialInv(w) && Frontier(w) && s in w.q.nodes && w.q.fifo[0] == s
    requires Complete(w.q, s, f).1.Completed?
    ensures Frontier(w.(q := Complete(w.q, s, f).0, done := w.done + {s}))
  {
    var q' := Complete(w.q, s, f).0;
    SortedOf(w);
    hide SerialInv, RemoveFirst;
    assert q'.completed == s && q'.nodes == w.q.nodes - {s};
    forall t | t in q'.nodes ensures s < t { assert w.q.fifo[PlaceOf(w.q, t)] == t; }
  }

  lemma FrontierFrame(w: World, w': World)
    requires Frontier(w) && w'.q.completed == w.q.completed && w'.done == w.done && w'.q.nodes.Keys <= w.q.nodes.Keys
    ensures Frontier(w')
  {
    assert forall s :: s in w'.q.nodes ==> s in w.q.nodes.Keys;
  }

  // Queue regions other than publication and completion keep the frontier.
  lemma RegionsKeepFrontier(q: Queue)
    ensures Reserve(q).0.completed == q.completed && EnterPump(q).0.completed == q.completed && Pick(q).0.completed == q.completed
    ensures Reserve(q).0.nodes == q.nodes && EnterPump(q).0.nodes == q.nodes && Pick(q).0.nodes.Keys == q.nodes.Keys
    ensures forall s :: Abandon(q, s).completed == q.completed && Park(q, s).completed == q.completed
    ensures forall s :: Abandon(q, s).nodes == q.nodes && Park(q, s).nodes.Keys == q.nodes.Keys
    ensures forall s, pre :: FailDispatch(q, s, pre).completed == q.completed && FailDispatch(q, s, pre).nodes.Keys <= q.nodes.Keys
    ensures forall s, f :: CommitFailure(q, s, f).0.completed == q.completed && CommitFailure(q, s, f).0.nodes == q.nodes
    ensures forall s, f :: RecordPostCompletionFailure(q, s, f).completed == q.completed && RecordPostCompletionFailure(q, s, f).nodes == q.nodes
  {
    hide RemoveFirst;
    PickKeys(q);
  }

  lemma PickKeys(q: Queue)
    ensures Pick(q).0.nodes.Keys == q.nodes.Keys
  {
  }

  lemma OtherFrontier(w: World, e: Event)
    requires !e.PublishBy? && !e.CompleteFailed? && !e.CompleteBy?
    ensures var w' := Next(w, e); w'.q.completed == w.q.completed && w'.done == w.done && w'.q.nodes.Keys <= w.q.nodes.Keys
  {
    RegionsKeepFrontier(w.q);
    hide Reserve, Abandon, EnterPump, Pick, Park, FailDispatch, CommitFailure, RecordPostCompletionFailure;
    if e.ReserveBy? || e.PrepareThrows? || e.AbandonBy? {
      hide DoCompleteFailed, DoComplete, DoEnter, DoPick, DoUnavailable, DoThrow, DoPublish;
    } else {
      hide DoCompleteFailed, DoComplete, DoReserve, DoPublish, DoUnwind, DoAbandonFailed, DoAbandonUnpublished;
    }
  }

  lemma PublishFrontier(w: World, tid: Tid)
    requires Inv(w) && SerialInv(w) && Frontier(w) && AtPrepare(w, tid)
    ensures Frontier(DoPublish(w, tid, w.threads[tid].sub))
  {
    var x := w.threads[tid].sub;
    assert ThreadOk(w, w.threads[tid]) && SubmitterOk(w, w.threads[tid]);
    AbandonRewinds(w, x);
    hide Inv, SerialInv, Abandon;
  }

  lemma StepFrontier(w: World, e: Event)
    requires Inv(w) && SerialInv(w) && Frontier(w) && InOrder(w, e)
    ensures Frontier(Next(w, e))
  {
    assert QueueInv(w.q);
    hide Inv, SerialInv, Frontier, QueueInv, DoPublish;
    if e.PublishBy? {
      if AtPrepare(w, e.tid) { PublishFrontier(w, e.tid); }
    } else if e.CompleteBy? {
      CompleteByFrontier(w, e);
    } else if e.CompleteFailed? {
      CompleteFailedFrontier(w, e);
    } else {
      OtherFrontier(w, e);
      hide Next;
      FrontierFrame(w, Next(w, e));
    }
  }

  lemma CompleteByFrontier(w: World, e: Event)
    requires QueueInv(w.q) && SerialInv(w) && Frontier(w) && InOrder(w, e) && e.CompleteBy?
    ensures Frontier(Next(w, e))
  {
    hide QueueInv, SerialInv, Frontier;
    var w' := Next(w, e);
    if Complete(w.q, e.sequence, e.outcome).1.Completed? && e.tid !in w.threads {
      CompleteFrontier(w, e.sequence, e.outcome);
      FrontierFrame(w.(q := Complete(w.q, e.sequence, e.outcome).0, done := w.done + {e.sequence}), w');
    } else {
      FrontierFrame(w, w');
    }
  }

  lemma CompleteFailedFrontier(w: World, e: Event)
    requires QueueInv(w.q) && SerialInv(w) && Frontier(w) && InOrder(w, e) && e.CompleteFailed?
    ensures Frontier(Next(w, e))
  {
    hide QueueInv, SerialInv, Frontier;
    var w' := Next(w, e);
    if In(w, e.tid, (p: Phase) => p.Completing?) {
      var t, f := w.threads[e.tid].phase.target, Some(w.threads[e.tid].phase.failure);
      if Complete(w.q, t, f).1.Completed? {
        CompleteFrontier(w, t, f);
        FrontierFrame(w.(q := Complete(w.q, t, f).0, done := w.done + {t}), w');
      } else {
        FrontierFrame(w, w');
      }
    }
  }

  // Serial submissions and completions in admission order, throughout the run.
  ghost predicate OrderedRun(w: World, es: seq<Event>) {
    SerialRun(w, es) && forall k: nat :: k < |es| ==> InOrder(Run(w, es[..k]), es[k])
  }

  lemma OrderedPrefix(w: World, es: seq<Event>, n: nat)
    requires n <= |es| && OrderedRun(w, es)
    ensures OrderedRun(w, es[..n])
  {
    hide InOrder, SerialRun;
    SerialPrefix(w, es, n);
    forall k: nat | k < n ensures InOrder(Run(w, es[..n][..k]), es[..n][k]) {
      assert es[..n][..k] == es[..k];
      assert InOrder(Run(w, es[..k]), es[k]);
    }
  }

  lemma InitialFrontier(capacity: nat)
    ensures Frontier(InitialWorld(capacity))
  {
  }

  lemma {:induction false} RunFrontier(capacity: nat, es: seq<Event>)
    requires OrderedRun(InitialWorld(capacity), es)
    ensures Frontier(Run(InitialWorld(capacity), es))
    decreases |es|
  {
    hide Inv, SerialInv, Frontier, Next, InOrder, SerialRun, InitialWorld;
    if es == [] {
      InitialFrontier(capacity);
    } else {
      var w := Run(InitialWorld(capacity), es[..|es| - 1]);
      OrderedPrefix(InitialWorld(capacity), es, |es| - 1);
      RunFrontier(capacity, es[..|es| - 1]);
      RunSerial(capacity, es[..|es| - 1]);
      assert InOrder(w, es[|es| - 1]);
      StepFrontier(w, es[|es| - 1]);
    }
  }

  // wait is exact: it blocks while the sequence is in the queue, and then reports its retained
  // failure if there is one and success otherwise.
  ghost predicate WaitExact(w: World) {
    forall s :: s in w.q.nodes || s in w.done ==>
      && (WaitLook(w.q, s).Blocked? <==> s in w.q.nodes)
      && (WaitLook(w.q, s).Finished? <==> s in w.done && s !in w.q.failures)
      && (WaitLook(w.q, s).Failed? <==> s in w.q.failures)
  }

  lemma OrderedWait(capacity: nat, es: seq<Event>)
    requires OrderedRun(InitialWorld(capacity), es)
    ensures WaitExact(Run(InitialWorld(capacity), es))
  {
    RunSerial(capacity, es);
    RunFrontier(capacity, es);
    RunFailuresDone(InitialWorld(capacity), es);
    hide Run, OrderedRun, SerialInv, ControlInv, TableInv, NodesInv;
  }

  // A completion that passes an older node makes wait on that node return while it is in the queue.
  lemma PassedNodeMisreported(w: World, e: Event)
    requires Inv(w) && SerialInv(w) && !InOrder(w, e)
    ensures !WaitExact(Next(w, e))
  {
    var t := if e.CompleteBy? then e.sequence else w.threads[e.tid].phase.target;
    var f := if e.CompleteBy? then e.outcome else Some(w.threads[e.tid].phase.failure);
    SortedOf(w);
    assert Dense(w) && QueueInv(w.q);
    hide Inv, SerialInv, ControlInv, TableInv, NodesInv, DoneInv, RemoveFirst;
    assert Complete(w.q, t, f).1.Completed?;
    var u, w', i := w.q.fifo[0], Next(w, e), PlaceOf(w.q, t);
    assert u in w.q.fifo && i != 0;
    assert w'.q == Complete(w.q, t, f).0;
    hide QueueInv, Dense;
    assert u < t <= w'.q.completed && u in w'.q.nodes && !WaitLook(w'.q, u).Blocked?;
  }

  // In a run of serial submitters wait is exact throughout if and only if every completion of a node,
  // from outside or from the pump, completes the oldest one.
  lemma WaitIsExact(capacity: nat, es: seq<Event>)
    requires SerialRun(InitialWorld(capacity), es)
    ensures (forall k: nat :: k <= |es| ==> WaitExact(Run(InitialWorld(capacity), es[..k])))
       <==> (forall k: nat :: k < |es| ==> InOrder(Run(InitialWorld(capacity), es[..k]), es[k]))
  {
    var w := InitialWorld(capacity);
    hide WaitExact, InOrder, Next, Inv, SerialInv, Accounted, InitialWorld, SerialRun;
    if k: nat :| k < |es| && !InOrder(Run(w, es[..k]), es[k]) {
      SerialPrefix(w, es, k);
      RunSerial(capacity, es[..k]);
      PassedNodeMisreported(Run(w, es[..k]), es[k]);
      assert es[..k + 1][..k] == es[..k];
      assert !WaitExact(Run(w, es[..k + 1]));
    } else {
      assert OrderedRun(w, es);
      forall k: nat | k <= |es| ensures WaitExact(Run(w, es[..k])) {
        OrderedPrefix(w, es, k);
        OrderedWait(capacity, es[..k]);
      }
    }
  }

  // The admission order is strictly increasing in the sequences.
  lemma AdmissionOrderIncreases(capacity: nat, es: seq<Event>)
    requires SerialRun(InitialWorld(capacity), es)
    ensures Sorted(Run(InitialWorld(capacity), es).q.fifo)
  {
    RunSerial(capacity, es);
  }
}

// Final dispatches follow publication order.

module AdmissionOrder {
  import opened AdmissionQueue
  import opened AdmissionProtocol
  import opened AdmissionInvariants
  import opened AdmissionSafety
  import opened AdmissionProperties

  // ---------------------------------------------------------------- dispatch order

  predicate Increasing(log: seq<nat>) {
    forall i, j :: 0 <= i < j < |log| ==> log[i] < log[j]
  }

  // The admission order is publication order.
  ghost predicate FifoOrdered(w: World) {
    && (forall i, j :: 0 <= i < j < |w.q.fifo| ==> StampOf(w, w.q.fifo[i]) < StampOf(w, w.q.fifo[j]))
    && (forall i :: 0 <= i < |w.q.fifo| ==> StampOf(w, w.q.fifo[i]) < w.published)
  }

  // Whatever was finally dispatched was published before everything still waiting.
  ghost predicate LogBehind(w: World) {
    && (forall i :: 0 <= i < |w.log| ==> w.log[i] < w.published)
    && (w.log != [] ==> forall i :: w.q.credits <= i < |w.q.fifo| ==> w.log[|w.log| - 1] < StampOf(w, w.q.fifo[i]))
  }

  // A dispatch in progress is the last entry of the log while its node is in the queue.
  ghost predicate LogTarget(w: World, pc: Pc) {
    pc.Pumping? && pc.phase.Dispatching? && pc.phase.target in w.q.nodes ==>
      w.log != [] && w.log[|w.log| - 1] == StampOf(w, pc.phase.target)
  }

  ghost predicate OrderInv(w: World) {
    && Increasing(w.log) && FifoOrdered(w) && LogBehind(w)
    && forall a :: a in w.threads ==> LogTarget(w, w.threads[a])
  }

  // Nodes of w' are nodes of w with the same stamps.
  ghost predicate SameStamps(w: World, w': World) {
    forall s :: s in w'.q.nodes ==> s in w.q.nodes && StampOf(w', s) == StampOf(w, s)
  }

  // Dispatches in progress in w' were in progress in w.
  ghost predicate NoNewDispatch(w: World, w': World) {
    forall a :: a in w'.threads && w'.threads[a].Pumping? && w'.threads[a].phase.Dispatching? ==>
      a in w.threads && w.threads[a].Pumping? && w.threads[a].phase == w'.threads[a].phase
  }

  lemma OrderKept(w: World, w': World)
    requires OrderInv(w) && QueueInv(w'.q) && SameStamps(w, w') && NoNewDispatch(w, w')
    requires w'.q.fifo == w.q.fifo && w'.q.credits == w.q.credits && w'.log == w.log && w'.published == w.published
    ensures OrderInv(w')
  {
    assert forall i :: 0 <= i < |w'.q.fifo| ==> w'.q.fifo[i] in w'.q.nodes by {
      forall i | 0 <= i < |w'.q.fifo| ensures w'.q.fifo[i] in w'.q.nodes { assert w'.q.fifo[i] in w'.q.fifo; }
    }
    hide QueueInv, StampOf;
    forall a | a in w'.threads ensures LogTarget(w', w'.threads[a]) {
      if w'.threads[a].Pumping? && w'.threads[a].phase.Dispatching? { assert LogTarget(w, w.threads[a]); }
    }
  }

  lemma OrderErased(w: World, w': World, s: nat)
    requires OrderInv(w) && QueueInv(w.q) && QueueInv(w'.q) && SameStamps(w, w') && NoNewDispatch(w, w')
    requires s in w.q.nodes && w'.q.nodes.Keys == w.q.nodes.Keys - {s} && w'.q.fifo == RemoveFirst(w.q.fifo, s)
    requires w'.q.credits == if w.q.nodes[s].executing then Decrement(w.q.credits) else w.q.credits
    requires w'.log == w.log && w'.published == w.published
    ensures OrderInv(w')
  {
    var q1 := w'.q.(nodes := w.q.nodes - {s});
    EraseAt(w.q, s, q1) by { hide QueueInv, RemoveFirst; }
    var i := PlaceOf(w.q, s);
    assert ErasedAt(w.q, i, q1);
    assert forall k :: 0 <= k < |w'.q.fifo| ==> w'.q.fifo[k] in w'.q.nodes by {
      forall k | 0 <= k < |w'.q.fifo| ensures w'.q.fifo[k] in w'.q.nodes { assert w'.q.fifo[k] in w'.q.fifo; }
    }
    hide QueueInv, StampOf, RemoveFirst;
    ErasedFifoOrdered(w, w', i);
    forall a | a in w'.threads ensures LogTarget(w', w'.threads[a]) {
      if w'.threads[a].Pumping? && w'.threads[a].phase.Dispatching? { assert LogTarget(w, w.threads[a]); }
    }
  }

  lemma ErasedFifoOrdered(w: World, w': World, i: nat)
    requires FifoOrdered(w) && LogBehind(w) && SameStamps(w, w') && w'.log == w.log && w'.published == w.published
    requires i < |w.q.fifo| && |w'.q.fifo| == |w.q.fifo| - 1
    requires forall k :: 0 <= k < i ==> w'.q.fifo[k] == w.q.fifo[k]
    requires forall k :: i <= k < |w'.q.fifo| ==> w'.q.fifo[k] == w.q.fifo[k + 1]
    requires w'.q.credits == if i < w.q.credits then w.q.credits - 1 else w.q.credits
    requires forall k :: 0 <= k < |w'.q.fifo| ==> w'.q.fifo[k] in w'.q.nodes
    ensures FifoOrdered(w') && LogBehind(w')
  {
    hide StampOf;
    forall k | 0 <= k < |w'.q.fifo|
      ensures StampOf(w', w'.q.fifo[k]) == StampOf(w, w.q.fifo[if k < i then k else k + 1])
    {
    }
  }

  // ---------------------------------------------------------------- order, event by event

  // Stamps of the submissions in the table do not change.
  ghost predicate StampsKept(w: World, w': World) {
    forall x :: x in w.table ==> x in w'.table && w'.table[x].stamp == w.table[x].stamp
  }

  lemma KeptSameStamps(w: World, w': World)
    requires NodesInv(w) && StampsKept(w, w')
    requires forall s :: s in w'.q.nodes ==> s in w.q.nodes && w'.q.nodes[s].sub == w.q.nodes[s].sub
    ensures SameStamps(w, w')
  {
    forall s | s in w'.q.nodes ensures StampOf(w', s) == StampOf(w, s) { assert NodeOk(w, s); }
  }

  lemma FifoInNodes(q: Queue)
    requires QueueInv(q)
    ensures forall i :: 0 <= i < |q.fifo| ==> q.fifo[i] in q.nodes
  {
    forall i | 0 <= i < |q.fifo| ensures q.fifo[i] in q.nodes { assert q.fifo[i] in q.fifo; }
  }

  // A published node gets the next stamp; those of the others stay.
  lemma PublishStamps(w: World, w': World, tid: Tid)
    requires Inv(w) && AtPrepare(w, tid) && w' == DoPublish(w, tid, w.threads[tid].sub)
    requires Publish(w.q, w.table[w.threads[tid].sub].sequence, w.threads[tid].sub).1.Published?
    ensures forall t :: t in w.q.nodes ==> t in w'.q.nodes && StampOf(w', t) == StampOf(w, t)
    ensures StampOf(w', w.table[w.threads[tid].sub].sequence) == w.published
  {
    assert ThreadOk(w, w.threads[tid]);
    hide PumpInv, QueueInv, TableInv, DoneInv;
    forall t | t in w.q.nodes ensures StampOf(w', t) == StampOf(w, t) { assert NodeOk(w, t); }
  }

  lemma PublishTargets(w: World, w': World, tid: Tid)
    requires Inv(w) && OrderInv(w) && AtPrepare(w, tid) && w' == DoPublish(w, tid, w.threads[tid].sub)
    requires Publish(w.q, w.table[w.threads[tid].sub].sequence, w.threads[tid].sub).1.Published?
    ensures forall a :: a in w'.threads ==> LogTarget(w', w'.threads[a])
  {
    PublishStamps(w, w', tid);
    var s := w.table[w.threads[tid].sub].sequence;
    assert s !in w.done by { assert ThreadOk(w, w.threads[tid]) && SubmissionOk(w, w.threads[tid].sub); }
    hide DataInv, PumpInv, StampOf;
    forall a | a in w'.threads ensures LogTarget(w', w'.threads[a]) {
      if a != tid { assert LogTarget(w, w.threads[a]) && TargetOk(w, w.threads[a]); }
    }
  }

  lemma PublishOrder(w: World, tid: Tid)
    requires Inv(w) && OrderInv(w) && AtPrepare(w, tid)
    requires Publish(w.q, w.table[w.threads[tid].sub].sequence, w.threads[tid].sub).1.Published?
    ensures OrderInv(DoPublish(w, tid, w.threads[tid].sub))
  {
    var w' := DoPublish(w, tid, w.threads[tid].sub);
    PublishStamps(w, w', tid);
    PublishTargets(w, w', tid);
    FifoInNodes(w.q);
    var s := w.table[w.threads[tid].sub].sequence;
    assert w'.q.fifo == w.q.fifo + [s] && w'.q.credits == w.q.credits;
    assert w.q.credits <= |w.q.fifo|;
    hide Inv, StampOf, DoPublish, LogTarget;
  }

  // Nodes keep their stamps and places in the order.
  ghost predicate SameOrder(w: World, w': World) {
    && w'.q.fifo == w.q.fifo && w'.published == w.published
    && forall i :: 0 <= i < |w.q.fifo| ==> StampOf(w', w.q.fifo[i]) == StampOf(w, w.q.fifo[i])
  }

  ghost predicate NoDispatch(w: World, tid: Tid) {
    forall a :: a in w.threads && a != tid ==> !(w.threads[a].Pumping? && w.threads[a].phase.Dispatching?)
  }

  // Dispatching the first waiting node extends the log in order.
  lemma ExtendedOrder(w: World, w': World, tid: Tid)
    requires OrderInv(w) && SameOrder(w, w') && w.q.credits < |w.q.fifo| && w'.q.credits == w.q.credits + 1
    requires w'.log == w.log + [StampOf(w, w.q.fifo[w.q.credits])]
    requires NoDispatch(w', tid) && tid in w'.threads && w'.threads[tid].Pumping?
    requires w'.threads[tid].phase == Dispatching(w.q.fifo[w.q.credits])
    ensures OrderInv(w')
  {
    hide StampOf;
  }

  // Taking the last dispatch back shortens the log in order.
  lemma RetractedOrder(w: World, w': World, tid: Tid)
    requires OrderInv(w) && SameOrder(w, w') && 0 < w.q.credits <= |w.q.fifo| && w'.q.credits == w.q.credits - 1
    requires w.log != [] && w.log[|w.log| - 1] == StampOf(w, w.q.fifo[w.q.credits - 1]) && w'.log == w.log[..|w.log| - 1]
    requires NoDispatch(w', tid) && tid !in w'.threads
    ensures OrderInv(w')
  {
    hide StampOf;
  }

  lemma StampsSameOrder(w: World, w': World)
    requires QueueInv(w.q) && NodesInv(w) && StampsKept(w, w') && SameNodes(w.q, w'.q)
    requires w'.q.fifo == w.q.fifo && w'.published == w.published
    ensures SameOrder(w, w')
  {
    FifoInNodes(w.q);
    hide QueueInv;
    forall i | 0 <= i < |w.q.fifo| ensures StampOf(w', w.q.fifo[i]) == StampOf(w, w.q.fifo[i]) { assert NodeOk(w, w.q.fifo[i]); }
  }

  // Only the pumping thread dispatches.
  lemma OthersNoDispatch(w: World, w': World, tid: Tid)
    requires PumpInv(w) && tid in w.threads && InPump(w.threads[tid])
    requires forall a :: a in w'.threads && a != tid ==> a in w.threads && w'.threads[a] == w.threads[a]
    ensures NoDispatch(w', tid)
  {
  }

  // A pick dispatches the first waiting node, published after everything dispatched before.
  lemma PickOrder(w: World, tid: Tid)
    requires Inv(w) && OrderInv(w) && In(w, tid, (p: Phase) => p.Scanning?) && Pick(w.q).1.Some?
    ensures OrderInv(DoPick(w, tid, w.threads[tid].call))
  {
    var w' := DoPick(w, tid, w.threads[tid].call);
    PickQueue(w.q);
    hide Pick, OrderInv, TableInv, DoneInv, ThreadsInv, NodesInv, PumpInv, QueueInv;
    StampsSameOrder(w, w') by { hide PumpInv; }
    OthersNoDispatch(w, w', tid);
    ExtendedOrder(w, w', tid) by { hide SameOrder, NoDispatch, Inv; }
  }

  lemma ParkedTarget(w: World, tid: Tid)
    requires Inv(w) && OrderInv(w) && AtDispatch(w, tid) && w.threads[tid].phase.target in w.q.nodes
    ensures 0 < w.q.credits <= |w.q.fifo| && w.q.fifo[w.q.credits - 1] == w.threads[tid].phase.target
    ensures w.log != [] && w.log[|w.log| - 1] == StampOf(w, w.threads[tid].phase.target)
  {
    assert TargetOk(w, w.threads[tid]) && LogTarget(w, w.threads[tid]);
    hide PumpInv, DataInv, ThreadOk;
  }

  lemma LeaveKeepsStamps(w: World, tid: Tid, call: Call)
    ensures StampsKept(w, Leave(w, tid, call))
  {
  }

  // Parking takes the dispatch back from the end of the log.
  lemma UnavailableOrder(w: World, tid: Tid)
    requires Inv(w) && OrderInv(w) && AtDispatch(w, tid)
    ensures OrderInv(DoUnavailable(w, tid, w.threads[tid].call, w.threads[tid].phase.target))
  {
    var call, t := w.threads[tid].call, w.threads[tid].phase.target;
    var w' := DoUnavailable(w, tid, call, t);
    UnavailableKeeps(w, tid);
    UnavailableEffect(w, tid, call, t);
    LeaveKeepsStamps(w, tid, call);
    assert StampsKept(w, w') && w'.published == w.published;
    assert w'.q.fifo == w.q.fifo;
    assert w'.log == if t in w.q.nodes && w.log != [] then w.log[..|w.log| - 1] else w.log;
    assert w'.q.credits == if t in w.q.nodes then Decrement(w.q.credits) else w.q.credits;
    hide DoUnavailable, Leave, Park, OrderInv, ThreadsInv, TableInv, DoneInv, StampsKept;
    assert SameOrder(w, w') by { StampsSameOrder(w, w') by { hide PumpInv; } }
    assert NoDispatch(w', tid) by { OthersNoDispatch(w, w', tid); }
    if t in w.q.nodes {
      ParkedTarget(w, tid);
      RetractedOrder(w, w', tid) by { hide SameOrder, NoDispatch, Inv; }
    } else {
      UnchangedOrder(w, w', tid) by { hide SameOrder, NoDispatch, Inv; }
    }
  }

  lemma UnchangedOrder(w: World, w': World, tid: Tid)
    requires OrderInv(w) && SameOrder(w, w') && w'.q.credits == w.q.credits && w'.log == w.log
    requires NoDispatch(w', tid) && tid !in w'.threads
    ensures OrderInv(w')
  {
    hide StampOf;
  }

  // ---------------------------------------------------------------- the other events

  // The admission order stays, or loses one node together with its credit.
  ghost predicate ErasedFrom(q: Queue, q': Queue, s: nat) {
    && s in q.nodes && q'.nodes == q.nodes - {s} && q'.fifo == RemoveFirst(q.fifo, s)
    && q'.credits == if q.nodes[s].executing then Decrement(q.credits) else q.credits
  }

  ghost predicate QuietQueue(q: Queue, q': Queue) {
    || (q'.fifo == q.fifo && q'.credits == q.credits && q'.nodes.Keys == q.nodes.Keys
        && forall s :: s in q.nodes ==> q'.nodes[s].sub == q.nodes[s].sub)
    || exists s :: ErasedFrom(q, q', s)
  }

  ghost predicate QuietStep(w: World, w': World) {
    QuietQueue(w.q, w'.q) && StampsKept(w, w') && NoNewDispatch(w, w') && w'.log == w.log && w'.published == w.published
  }

  lemma QuietOrder(w: World, w': World)
    requires Inv(w) && QueueInv(w'.q) && OrderInv(w) && QuietStep(w, w')
    ensures OrderInv(w')
  {
    assert QueueInv(w.q) && NodesInv(w);
    hide Inv, QueueInv, NodesInv, OrderInv, NoNewDispatch, StampsKept, RemoveFirst;
    KeptSameStamps(w, w');
    if s :| ErasedFrom(w.q, w'.q, s) {
      OrderErased(w, w', s);
    } else {
      OrderKept(w, w');
    }
  }

  lemma ReserveQuiet(w: World, tid: Tid)
    requires TableInv(w)
    ensures QuietStep(w, DoReserve(w, tid))
  {
    assert w.subs !in w.table;
    hide TableInv;
  }

  lemma AbandonUnpublishedQuiet(w: World, tid: Tid)
    requires AtUnwind(w, tid)
    ensures QuietStep(w, DoAbandonUnpublished(w, tid, w.threads[tid].sub))
  {
  }

  lemma AbandonFailedQuiet(w: World, tid: Tid, call: Call)
    requires call.Submitter?
    ensures QuietStep(w, DoAbandonFailed(w, tid, call))
  {
  }

  lemma SubmitQuiet(w: World, e: Event)
    requires Inv(w) && (e.ReserveBy? || e.PrepareThrows? || e.AbandonBy?)
    ensures QuietStep(w, Next(w, e))
  {
    assert TableInv(w) by { DataParts(w); }
    hide Inv, TableInv, DoReserve, DoUnwind, DoAbandonFailed, DoAbandonUnpublished, QuietStep;
    assert QuietStep(w, w) by { NothingQuiet(w); }
    if e.ReserveBy? {
      ReserveQuiet(w, e.tid);
    } else if e.PrepareThrows? {
      if AtPrepare(w, e.tid) { UnwindQuiet(w, e.tid); }
    } else if AtUnwind(w, e.tid) {
      AbandonUnpublishedQuiet(w, e.tid);
    } else if In(w, e.tid, (p: Phase) => p.RolledBack?) && w.threads[e.tid].call.Submitter? {
      AbandonFailedQuiet(w, e.tid, w.threads[e.tid].call);
    }
  }

  lemma NothingQuiet(w: World)
    ensures QuietStep(w, w)
  {
  }

  lemma UnwindQuiet(w: World, tid: Tid)
    requires AtPrepare(w, tid)
    ensures QuietStep(w, DoUnwind(w, tid, w.threads[tid].sub))
  {
  }

  lemma EnterQuiet(w: World, e: Event)
    requires e.EnterBy? || e.DispatchReturns? || e.EnterNested?
    ensures QuietStep(w, Next(w, e))
  {
    hide DoReserve, DoUnwind, DoPick, DoUnavailable, DoThrow, DoCompleteFailed, DoComplete;
  }

  lemma PickNoneQuiet(w: World, tid: Tid)
    requires QueueInv(w.q) && In(w, tid, (p: Phase) => p.Scanning?) && Pick(w.q).1.None?
    ensures QuietStep(w, DoPick(w, tid, w.threads[tid].call))
  {
    PickQueue(w.q);
    hide Pick, QueueInv;
  }

  lemma FailQueueQuiet(q: Queue, t: nat, pre: bool)
    ensures QuietQueue(q, FailDispatch(q, t, pre))
  {
    if pre && t in q.nodes { assert ErasedFrom(q, FailDispatch(q, t, pre), t); }
  }

  lemma ThrowQuiet(w: World, tid: Tid, failure: Failure)
    requires AtDispatch(w, tid)
    ensures QuietStep(w, Next(w, DispatchThrows(tid, failure)))
  {
    var call, t := w.threads[tid].call, w.threads[tid].phase.target;
    var w' := DoThrow(w, tid, call, t, failure);
    hide FailDispatch, QuietQueue, StampsKept;
    FailQueueQuiet(w.q, t, Preaccepts(call, t));
    assert NoNewDispatch(w, w');
    ThrowKeepsStamps(w, tid, call, t, failure);
  }

  lemma ThrowKeepsStamps(w: World, tid: Tid, call: Call, t: nat, failure: Failure)
    ensures StampsKept(w, DoThrow(w, tid, call, t, failure))
  {
    hide FailDispatch;
  }

  lemma CompleteQuiet(w: World, e: Event)
    requires e.CompleteFailed? || e.CompleteBy?
    ensures QuietStep(w, Next(w, e))
  {
    var w' := Next(w, e);
    assert QuietQueue(w.q, w'.q) by {
      if e.CompleteBy? && e.sequence in w.q.nodes && w' != w { assert ErasedFrom(w.q, w'.q, e.sequence); }
      if e.CompleteFailed? && w'.q != w.q { assert ErasedFrom(w.q, w'.q, w.threads[e.tid].phase.target); }
    }
    hide QuietQueue, Complete;
  }

  lemma StepOrder(w: World, e: Event)
    requires Inv(w) && OrderInv(w)
    ensures OrderInv(Next(w, e))
  {
    var w' := Next(w, e);
    StepPreserves(w, e);
    assert QueueInv(w'.q) && QueueInv(w.q);
    hide Inv, OrderInv, QueueInv, DoPublish, DoPick, DoUnavailable, DoUnwind, QuietStep;
    if e.PublishBy? {
      if AtPrepare(w, e.tid) {
        var x := w.threads[e.tid].sub;
        if Publish(w.q, w.table[x].sequence, x).1.Published? { PublishOrder(w, e.tid); } else { UnwindQuiet(w, e.tid); UnpublishedUnwinds(w, e.tid); QuietOrder(w, w'); }
      }
    } else if e.PickBy? {
      if In(w, e.tid, (p: Phase) => p.Scanning?) {
        if Pick(w.q).1.Some? { PickOrder(w, e.tid); } else { PickNoneQuiet(w, e.tid); QuietOrder(w, w'); }
      }
    } else if e.DispatchUnavailable? {
      if AtDispatch(w, e.tid) { UnavailableOrder(w, e.tid); }
    } else {
      OtherQuiet(w, e);
      QuietOrder(w, w');
    }
  }

  lemma OtherQuiet(w: World, e: Event)
    requires Inv(w) && !e.PublishBy? && !e.PickBy? && !e.DispatchUnavailable?
    ensures QuietStep(w, Next(w, e))
  {
    hide Inv;
    if e.ReserveBy? || e.PrepareThrows? || e.AbandonBy? {
      SubmitQuiet(w, e);
    } else if e.EnterBy? || e.DispatchReturns? || e.EnterNested? {
      EnterQuiet(w, e);
    } else if e.DispatchThrows? {
      if AtDispatch(w, e.tid) { ThrowQuiet(w, e.tid, e.failure); }
    } else if e.CompleteFailed? || e.CompleteBy? {
      CompleteQuiet(w, e);
    } else {
      hide RemoveFirst;
    }
  }

  lemma InitialOrder(capacity: nat)
    ensures OrderInv(InitialWorld(capacity))
  {
  }

  lemma {:induction false} RunOrder(capacity: nat, es: seq<Event>)
    ensures OrderInv(Run(InitialWorld(capacity), es))
    decreases |es|
  {
    var w := InitialWorld(capacity);
    hide Inv, OrderInv, Next, InitialWorld;
    if es == [] {
      InitialOrder(capacity);
    } else {
      RunOrder(capacity, es[..|es| - 1]);
      ReachableInv(capacity, es[..|es| - 1]);
      StepOrder(Run(w, es[..|es| - 1]), es[|es| - 1]);
    }
  }

  // Dispatches that were not taken back by parking happen in publication order, whatever was
  // parked, retried, completed or rejected in between.
  lemma DispatchesInOrder(capacity: nat, es: seq<Event>)
    ensures Increasing(Run(InitialWorld(capacity), es).log)
  {
    RunOrder(capacity, es);
  }
}

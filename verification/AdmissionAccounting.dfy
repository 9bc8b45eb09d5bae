// Which accepted submissions can be lost, and whose sequences can be handed out twice.

module AdmissionAccounting {
  import opened SizeT
  import opened AdmissionQueue
  import opened AdmissionProtocol
  import opened AdmissionInvariants
  import opened AdmissionProperties

  ghost predicate OwnsNode(w: World, x: Sub)
    requires x in w.table
  {
    w.table[x].sequence in w.q.nodes && w.q.nodes[w.table[x].sequence].sub == x
  }

  // Every accepted submission, and every one whose token was returned, has its node or has completed.
  ghost predicate Accounted(w: World) {
    forall x :: x in w.table && InQueue(w.table[x]) ==> OwnsNode(w, x) || w.table[x].sequence in w.done
  }

  // The numbers given to accepted submissions are below the counter, so nobody else is handed them.
  ghost predicate Issued(w: World) {
    forall x :: x in w.table && InQueue(w.table[x]) ==> 0 < w.table[x].sequence < w.q.next
  }

  // A pump gives the sequence of a submission whose node it erased back to the counter.
  predicate RewindsStolen(w: World, e: Event) {
    && e.AbandonBy? && e.tid in w.threads && Thief(w.threads[e.tid])
    && w.q.next == w.threads[e.tid].call.sequence + 1 && w.q.completed < w.threads[e.tid].call.sequence
  }

  // ---------------------------------------------------------------- where accepted sequences are

  ghost predicate HeldByThief(w: World, s: nat) {
    exists a :: a in w.threads && Thief(w.threads[a]) && w.threads[a].call.sequence == s
  }

  ghost predicate Located(w: World, x: Sub)
    requires x in w.table
  {
    var s := w.table[x].sequence;
    0 < s < w.q.next && (OwnsNode(w, x) || s in w.done || s in w.q.skipped || HeldByThief(w, s))
  }

  ghost predicate HasVictim(w: World, s: nat) {
    exists x :: x in w.table && InQueue(w.table[x]) && w.table[x].sequence == s
  }

  // Accepted submissions have distinct sequences that nobody can be handed again, and every
  // thief holds the sequence of one of them.
  ghost predicate Placed(w: World) {
    && (forall x :: x in w.table && InQueue(w.table[x]) ==> Located(w, x))
    && (forall x, y :: x in w.table && y in w.table && x != y && InQueue(w.table[x]) && InQueue(w.table[y])
          ==> w.table[x].sequence != w.table[y].sequence)
    && (forall a :: a in w.threads && Thief(w.threads[a]) ==> HasVictim(w, w.threads[a].call.sequence))
  }

  // ---------------------------------------------------------------- events that lose nothing

  ghost predicate NodesKept(w: World, w': World) {
    forall s :: s in w.q.nodes ==> (s in w'.q.nodes && w'.q.nodes[s].sub == w.q.nodes[s].sub) || s in w'.done
  }

  ghost predicate MembersKept(w: World, w': World) {
    && (forall x :: x in w'.table && InQueue(w'.table[x]) ==>
          x in w.table && InQueue(w.table[x]) && w.table[x].sequence == w'.table[x].sequence)
    && (forall x :: x in w.table && InQueue(w.table[x]) ==>
          x in w'.table && InQueue(w'.table[x]) && w.table[x].sequence == w'.table[x].sequence)
  }

  ghost predicate ThievesKept(w: World, w': World) {
    && (forall a :: a in w.threads && Thief(w.threads[a]) ==> a in w'.threads && w'.threads[a] == w.threads[a])
    && (forall a :: a in w'.threads && Thief(w'.threads[a]) ==> a in w.threads && w'.threads[a] == w.threads[a])
  }

  ghost predicate NumbersKept(w: World, w': World) {
    w.q.next <= w'.q.next && w.q.skipped <= w'.q.skipped && w.done <= w'.done
  }

  ghost predicate Kept(w: World, w': World) {
    NumbersKept(w, w') && NodesKept(w, w') && MembersKept(w, w') && ThievesKept(w, w')
  }

  lemma KeptPlaced(w: World, w': World)
    requires Placed(w) && Kept(w, w')
    ensures Placed(w')
  {
    forall x | x in w'.table && InQueue(w'.table[x]) ensures Located(w', x) {
      var s := w.table[x].sequence;
      assert Located(w, x);
      if HeldByThief(w, s) {
        var a :| a in w.threads && Thief(w.threads[a]) && w.threads[a].call.sequence == s;
        assert a in w'.threads && w'.threads[a] == w.threads[a];
      }
    }
    forall a | a in w'.threads && Thief(w'.threads[a]) ensures HasVictim(w', w'.threads[a].call.sequence) {
      assert HasVictim(w, w.threads[a].call.sequence);
      var x :| x in w.table && InQueue(w.table[x]) && w.table[x].sequence == w.threads[a].call.sequence;
      assert x in w'.table && InQueue(w'.table[x]);
    }
  }

  lemma KeptAccounted(w: World, w': World)
    requires Accounted(w) && Kept(w, w')
    ensures Accounted(w')
  {
  }

  lemma ReserveKeeps(w: World, tid: Tid)
    requires Inv(w) && tid !in w.threads
    ensures Kept(w, DoReserve(w, tid))
  {
    assert w.subs !in w.table;
    hide Inv;
  }

  lemma UnwindKeeps(w: World, tid: Tid)
    requires Inv(w) && AtPrepare(w, tid)
    ensures Kept(w, DoUnwind(w, tid, w.threads[tid].sub))
  {
    assert ThreadOk(w, w.threads[tid]);
    hide Inv;
  }

  lemma LeaveKeeps(w: World, w': World, tid: Tid)
    requires Inv(w) && tid in w.threads && w.threads[tid].Pumping? && !w.threads[tid].phase.RolledBack?
    requires w'.threads == w.threads - {tid} && w'.table == Leave(w, tid, w.threads[tid].call).table
    ensures MembersKept(w, w') && ThievesKept(w, w')
  {
    CallKnown(w, tid);
    LeaveKeepsMembers(w, w', tid);
    hide Inv, MembersKept, Leave, InQueue;
  }

  lemma CallKnown(w: World, tid: Tid)
    requires Inv(w) && tid in w.threads && w.threads[tid].Pumping?
    ensures ThreadOk(w, w.threads[tid])
  {
  }

  lemma LeaveKeepsMembers(w: World, w': World, tid: Tid)
    requires tid in w.threads && w.threads[tid].Pumping? && !w.threads[tid].phase.RolledBack? && ThreadOk(w, w.threads[tid])
    requires w'.table == Leave(w, tid, w.threads[tid].call).table
    ensures MembersKept(w, w')
  {
  }

  lemma GotoKeeps(w: World, w': World, tid: Tid)
    requires tid in w.threads && w.threads[tid].Pumping? && !w.threads[tid].phase.RolledBack?
    requires tid in w'.threads && w'.threads[tid].Pumping? && !w'.threads[tid].phase.RolledBack?
    requires w'.threads == w.threads[tid := w'.threads[tid]] && w'.table == w.table
    ensures MembersKept(w, w') && ThievesKept(w, w')
  {
  }

  lemma SameNodesKept(w: World, w': World)
    requires SameNodes(w.q, w'.q) && w'.done == w.done
    ensures NumbersKept(w, w') && NodesKept(w, w')
  {
  }

  lemma EnterKeeps(w: World, tid: Tid)
    requires Inv(w) && In(w, tid, (p: Phase) => p.Entering?)
    ensures Kept(w, DoEnter(w, tid, w.threads[tid].call))
  {
    var w' := DoEnter(w, tid, w.threads[tid].call);
    SameNodesKept(w, w');
    hide Inv, SetStage;
    if EnterPump(w.q).1 { GotoKeeps(w, w', tid); } else { LeaveKeeps(w, w', tid); }
  }

  lemma NoPickKeeps(w: World, tid: Tid)
    requires Inv(w) && In(w, tid, (p: Phase) => p.Scanning?) && Pick(w.q).1.None?
    ensures Kept(w, DoPick(w, tid, w.threads[tid].call))
  {
    var w' := DoPick(w, tid, w.threads[tid].call);
    PickQueue(w.q);
    hide Inv, QueueInv, Pick, NumbersKept, NodesKept, MembersKept, ThievesKept;
    SameNodesKept(w, w');
    LeaveKeeps(w, w', tid);
  }

  lemma PickedKeeps(w: World, tid: Tid)
    requires Inv(w) && In(w, tid, (p: Phase) => p.Scanning?) && Pick(w.q).1.Some?
    ensures Kept(w, DoPick(w, tid, w.threads[tid].call))
  {
    var w' := DoPick(w, tid, w.threads[tid].call);
    PickSomeKeeps(w, tid);
    hide Inv, QueueInv, Pick, SameNodes, NumbersKept, NodesKept, MembersKept, ThievesKept;
    SameNodesKept(w, w');
    GotoKeeps(w, w', tid);
  }

  lemma ParkKeeps(w: World, tid: Tid)
    requires Inv(w) && AtDispatch(w, tid)
    ensures Kept(w, DoUnavailable(w, tid, w.threads[tid].call, w.threads[tid].phase.target))
  {
    var call, t := w.threads[tid].call, w.threads[tid].phase.target;
    var w' := DoUnavailable(w, tid, call, t);
    UnavailableKeeps(w, tid);
    UnavailableEffect(w, tid, call, t);
    hide Inv, QueueInv, SameNodes, SetStage, Park, Leave, DoUnavailable;
    SameNodesKept(w, w');
    LeaveKeeps(w, w', tid);
  }

  lemma ReturnKeeps(w: World, e: Event)
    requires e.DispatchReturns? || e.EnterNested?
    ensures Kept(w, Next(w, e))
  {
  }

  lemma CompleteKeeps(w: World, e: Event)
    requires e.CompleteFailed? || e.CompleteBy?
    ensures Kept(w, Next(w, e))
  {
    hide RemoveFirst, DoReserve, DoUnwind, DoPublish, DoAbandonUnpublished, DoAbandonFailed, DoEnter, DoPick, DoUnavailable, DoThrow;
  }

  lemma FailOtherKeeps(w: World, tid: Tid, failure: Failure)
    requires AtDispatch(w, tid) && !Preaccepts(w.threads[tid].call, w.threads[tid].phase.target)
    ensures Kept(w, Next(w, DispatchThrows(tid, failure)))
  {
  }

  lemma OutsideKeeps(w: World, e: Event)
    requires e.CommitFor? || e.FailAfterCompletion? || e.Close?
    ensures Kept(w, Next(w, e))
  {
  }

  // All events but publications, abandons and throws that a pump takes for its own.
  predicate Loses(w: World, e: Event) {
    || e.PublishBy? || e.AbandonBy?
    || (e.DispatchThrows? && AtDispatch(w, e.tid) && Preaccepts(w.threads[e.tid].call, w.threads[e.tid].phase.target))
  }

  lemma OthersKeep(w: World, e: Event)
    requires Inv(w) && !Loses(w, e)
    ensures Kept(w, Next(w, e))
  {
    assert Kept(w, w);
    hide Inv, Kept, DoReserve, DoUnwind, DoEnter, DoPick, DoUnavailable, DoThrow, DoCompleteFailed, DoComplete;
    match e
    case ReserveBy(tid) => if tid !in w.threads { ReserveKeeps(w, tid); }
    case PrepareThrows(tid) => if AtPrepare(w, tid) { UnwindKeeps(w, tid); }
    case EnterBy(tid) => if In(w, tid, (p: Phase) => p.Entering?) { EnterKeeps(w, tid); }
    case PickBy(tid) => if In(w, tid, (p: Phase) => p.Scanning?) { if Pick(w.q).1.None? { NoPickKeeps(w, tid); } else { PickedKeeps(w, tid); } }
    case DispatchUnavailable(tid) => if AtDispatch(w, tid) { ParkKeeps(w, tid); }
    case DispatchReturns(_) => ReturnKeeps(w, e);
    case EnterNested(_) => ReturnKeeps(w, e);
    case DispatchThrows(tid, f) => if AtDispatch(w, tid) { FailOtherKeeps(w, tid, f); }
    case CompleteFailed(_) => CompleteKeeps(w, e);
    case CompleteBy(_, _, _) => CompleteKeeps(w, e);
    case _ => OutsideKeeps(w, e);
  }

  // ---------------------------------------------------------------- publications and abandons

  // A published submission gets a node under a sequence that no accepted one has.
  lemma PublishPlaced(w: World, tid: Tid)
    requires Inv(w) && Placed(w) && AtPrepare(w, tid)
    requires Publish(w.q, w.table[w.threads[tid].sub].sequence, w.threads[tid].sub).1.Published?
    ensures Placed(DoPublish(w, tid, w.threads[tid].sub))
  {
    var x := w.threads[tid].sub;
    var s, w' := w.table[x].sequence, DoPublish(w, tid, x);
    FreeUnlocated(w, tid, x, s);
    hide Inv;
    forall y | y in w'.table && InQueue(w'.table[y]) ensures Located(w', y) && (y != x ==> w'.table[y].sequence != s) {
      if y != x { assert Located(w, y); LocatedKept(w, w', y); }
    }
    VictimsKept(w, w');
  }

  // A sequence held outside the queue by a submission that was not robbed is no accepted one's.
  lemma FreeUnlocated(w: World, tid: Tid, x: Sub, s: nat)
    requires Inv(w) && Placed(w) && tid in w.threads && SubOf(w.threads[tid]) == Some(x) && x in w.table
    requires w.table[x].stage.Held? && s == w.table[x].sequence
    ensures FreeSequence(w, s) && !HeldByThief(w, s)
    ensures forall y :: y in w.table && InQueue(w.table[y]) ==> w.table[y].sequence != s
  {
    assert SubmissionOk(w, x);
    assert !HeldByThief(w, s) by {
      forall a | a in w.threads && Thief(w.threads[a]) ensures w.threads[a].call.sequence != s { assert TargetOk(w, w.threads[a]); }
    }
    forall y | y in w.table && InQueue(w.table[y]) ensures w.table[y].sequence != s { assert Located(w, y); }
  }

  lemma LocatedKept(w: World, w': World, x: Sub)
    requires x in w.table && Located(w, x) && x in w'.table && w'.table[x].sequence == w.table[x].sequence
    requires w.table[x].sequence < w'.q.next && w.q.skipped <= w'.q.skipped && w.done <= w'.done
    requires OwnsNode(w, x) ==> OwnsNode(w', x) || w.table[x].sequence in w'.done
    requires ThievesKept(w, w')
    ensures Located(w', x)
  {
    var s := w.table[x].sequence;
    if HeldByThief(w, s) {
      var a :| a in w.threads && Thief(w.threads[a]) && w.threads[a].call.sequence == s;
      assert a in w'.threads && w'.threads[a] == w.threads[a];
    }
  }

  lemma VictimsKept(w: World, w': World)
    requires Placed(w) && ThievesKept(w, w')
    requires forall x :: x in w.table && InQueue(w.table[x]) ==>
               x in w'.table && InQueue(w'.table[x]) && w.table[x].sequence == w'.table[x].sequence
    ensures forall a :: a in w'.threads && Thief(w'.threads[a]) ==> HasVictim(w', w'.threads[a].call.sequence)
  {
    forall a | a in w'.threads && Thief(w'.threads[a]) ensures HasVictim(w', w'.threads[a].call.sequence) {
      assert HasVictim(w, w.threads[a].call.sequence);
      var x :| x in w.table && InQueue(w.table[x]) && w.table[x].sequence == w.threads[a].call.sequence;
      assert x in w'.table && InQueue(w'.table[x]);
    }
  }

  // Giving back a sequence that no accepted submission has moves none of theirs.
  lemma AbandonKeepsPlaces(w: World, w': World, s: nat)
    requires Placed(w) && w'.q == Abandon(w.q, s) && w'.done == w.done && ThievesKept(w, w') && MembersKept(w, w')
    requires forall y :: y in w.table && InQueue(w.table[y]) ==> w.table[y].sequence != s
    ensures Placed(w')
  {
    VictimsKept(w, w');
    forall y | y in w'.table && InQueue(w'.table[y]) ensures Located(w', y) {
      assert Located(w, y);
      LocatedKept(w, w', y) by { hide Placed, ThievesKept; }
    }
  }

  lemma UnwindHolds(w: World, tid: Tid)
    requires Inv(w) && AtUnwind(w, tid)
    ensures SubOf(w.threads[tid]) == Some(w.threads[tid].sub) && w.threads[tid].sub in w.table && w.table[w.threads[tid].sub].stage.Held?
  {
    assert ThreadOk(w, w.threads[tid]);
  }

  lemma UnwindLeavesPlaces(w: World, tid: Tid)
    requires AtUnwind(w, tid) && w.threads[tid].sub in w.table && w.table[w.threads[tid].sub].stage.Held?
    ensures var w' := DoAbandonUnpublished(w, tid, w.threads[tid].sub);
      w'.q == Abandon(w.q, w.table[w.threads[tid].sub].sequence) && w'.done == w.done && ThievesKept(w, w') && MembersKept(w, w')
  {
    hide Abandon;
  }

  lemma AbandonUnpublishedPlaced(w: World, tid: Tid)
    requires Inv(w) && Placed(w) && AtUnwind(w, tid)
    ensures Placed(DoAbandonUnpublished(w, tid, w.threads[tid].sub))
  {
    hide Inv, Placed, Abandon, DoAbandonUnpublished, ThievesKept, MembersKept, HeldByThief, InQueue;
    var x := w.threads[tid].sub;
    UnwindHolds(w, tid);
    UnwindLeavesPlaces(w, tid);
    FreeUnlocated(w, tid, x, w.table[x].sequence);
    AbandonKeepsPlaces(w, DoAbandonUnpublished(w, tid, x), w.table[x].sequence);
  }

  lemma AbandonFailedPlaced(w: World, tid: Tid)
    requires Inv(w) && Placed(w) && In(w, tid, (p: Phase) => p.RolledBack?) && w.threads[tid].call.Submitter?
    requires !RewindsStolen(w, AbandonBy(tid))
    ensures Placed(DoAbandonFailed(w, tid, w.threads[tid].call))
  {
    var call := w.threads[tid].call;
    var s, w' := call.sequence, DoAbandonFailed(w, tid, call);
    assert ThreadOk(w, w.threads[tid]);
    if !call.failed { FreeUnlocated(w, tid, call.sub, s); }
    assert forall a :: a in w.threads && Thief(w.threads[a]) ==> a == tid;
    hide Inv;
    assert forall a :: a in w'.threads ==> !Thief(w'.threads[a]);
    forall y | y in w'.table && InQueue(w'.table[y]) ensures Located(w', y) { assert Located(w, y); }
  }

  // ---------------------------------------------------------------- throws that a pump takes for its own

  lemma SelfCompletedPlaced(w: World, tid: Tid, failure: Failure)
    requires Inv(w) && Placed(w) && AtDispatch(w, tid) && Preaccepts(w.threads[tid].call, w.threads[tid].phase.target)
    requires w.threads[tid].phase.target !in w.q.nodes
    ensures Placed(Next(w, DispatchThrows(tid, failure)))
  {
    var w' := Next(w, DispatchThrows(tid, failure));
    assert ThreadOk(w, w.threads[tid]);
    assert forall a :: a in w.threads ==> !Thief(w.threads[a]);
    hide Inv;
    assert ThievesKept(w, w') && w'.q == w.q && w'.done == w.done;
    assert forall x :: x in w'.table && InQueue(w'.table[x]) ==> x in w.table && w'.table[x] == w.table[x];
    hide Next, Preaccepts, ThievesKept;
    forall y | y in w'.table && InQueue(w'.table[y]) ensures Located(w', y) { assert Located(w, y); LocatedKept(w, w', y); }
  }

  // The effect of a throw on a node in the queue, as far as places go.
  lemma ThrownEffect(w: World, tid: Tid, failure: Failure)
    requires Inv(w) && AtDispatch(w, tid) && Preaccepts(w.threads[tid].call, w.threads[tid].phase.target)
    requires w.threads[tid].phase.target in w.q.nodes
    ensures var t, call, w' := w.threads[tid].phase.target, w.threads[tid].call, Next(w, DispatchThrows(tid, failure));
      && w'.q.next == w.q.next && w'.q.skipped == w.q.skipped && w'.done == w.done && w'.q.nodes == w.q.nodes - {t}
      && t !in w.done && t !in w.q.skipped
      && w'.threads == w.threads[tid := Pumping(call, RolledBack)]
      && (forall x :: x in w'.table <==> x in w.table)
      && (forall x :: x in w.table ==> w'.table[x].sequence == w.table[x].sequence)
      && (forall x :: x in w.table && (call.failed || x != call.sub) ==> w'.table[x].stage == w.table[x].stage)
      && (!call.failed ==> w'.table[call.sub].stage.Held?)
  {
    ThrownNode(w, tid, w.threads[tid].phase.target);
    hide ControlInv, TableInv, NodesInv, RemoveFirst;
  }

  lemma ThrownPlaced(w: World, tid: Tid, failure: Failure)
    requires Inv(w) && Placed(w) && AtDispatch(w, tid) && Preaccepts(w.threads[tid].call, w.threads[tid].phase.target)
    requires w.threads[tid].phase.target in w.q.nodes
    ensures Placed(Next(w, DispatchThrows(tid, failure)))
  {
    var call := w.threads[tid].call;
    ThrownNode(w, tid, w.threads[tid].phase.target);
    ThrownEffect(w, tid, failure);
    assert NodeOk(w, w.threads[tid].phase.target);
    assert forall a :: a in w.threads ==> !Thief(w.threads[a]);
    hide Inv, Next, TakeRollback, FailDispatch, Placed, HeldByThief, HasVictim, Unheld;
    if call.failed {
      RobbedPlaced(w, Next(w, DispatchThrows(tid, failure)), tid, w.threads[tid].phase.target);
    } else {
      RejectedPlaced(w, Next(w, DispatchThrows(tid, failure)), tid, w.threads[tid].phase.target);
    }
  }

  // What every throw on a node in the queue leaves as it was.
  ghost predicate ThrownFrom(w: World, w': World, tid: Tid, t: nat) {
    && w'.q.next == w.q.next && w'.q.skipped == w.q.skipped && w'.done == w.done && w'.q.nodes == w.q.nodes - {t}
    && t in w.q.nodes && t !in w.done && t !in w.q.skipped && tid in w'.threads && w'.threads == w.threads[tid := w'.threads[tid]]
    && (forall a :: a in w.threads ==> !Thief(w.threads[a]))
    && (forall x :: x in w'.table <==> x in w.table)
    && (forall x :: x in w.table ==> w'.table[x].sequence == w.table[x].sequence)
  }

  // The victim keeps its stage, and the thief holds its sequence.
  lemma RobbedPlaced(w: World, w': World, tid: Tid, t: nat)
    requires Placed(w) && ThrownFrom(w, w', tid, t)
    requires Thief(w'.threads[tid]) && w'.threads[tid].call.sequence == t
    requires forall x :: x in w.table ==> w'.table[x].stage == w.table[x].stage
    requires w.q.nodes[t].sub in w.table && InQueue(w.table[w.q.nodes[t].sub]) && w.table[w.q.nodes[t].sub].sequence == t
    ensures Placed(w')
  {
    assert HeldByThief(w', t);
    assert HasVictim(w', t) by { assert InQueue(w'.table[w.q.nodes[t].sub]); }
    forall y | y in w'.table && InQueue(w'.table[y]) ensures Located(w', y) { assert Located(w, y); }
  }

  // The submission that is outside the queue again was the node's own.
  lemma RejectedPlaced(w: World, w': World, tid: Tid, t: nat)
    requires Placed(w) && ThrownFrom(w, w', tid, t) && !Thief(w'.threads[tid])
    requires tid in w.threads && SubOf(w.threads[tid]).Some? && SubOf(w.threads[tid]).value in w.table
    requires var x := SubOf(w.threads[tid]).value; InQueue(w.table[x]) && w.table[x].sequence == t && w'.table[x].stage.Held?
    requires forall x :: x in w.table && SubOf(w.threads[tid]) != Some(x) ==> w'.table[x].stage == w.table[x].stage
    ensures Placed(w')
  {
    assert Located(w, SubOf(w.threads[tid]).value);
    forall y | y in w'.table && InQueue(w'.table[y]) ensures Located(w', y) { assert Located(w, y); }
  }

  lemma StepPlaced(w: World, e: Event)
    requires Inv(w) && Placed(w) && !RewindsStolen(w, e)
    ensures Placed(Next(w, e))
  {
    hide Inv, Placed, Kept, DoPublish, DoUnwind, DoThrow, DoAbandonFailed, DoAbandonUnpublished;
    if !Loses(w, e) {
      OthersKeep(w, e);
      KeptPlaced(w, Next(w, e));
    } else if e.PublishBy? {
      if AtPrepare(w, e.tid) {
        var x := w.threads[e.tid].sub;
        if Publish(w.q, w.table[x].sequence, x).1.Published? {
          PublishPlaced(w, e.tid);
        } else {
          UnpublishedUnwinds(w, e.tid);
          UnwindKeeps(w, e.tid);
          KeptPlaced(w, Next(w, e));
        }
      }
    } else if e.AbandonBy? {
      if AtUnwind(w, e.tid) {
        AbandonUnpublishedPlaced(w, e.tid);
      } else if In(w, e.tid, (p: Phase) => p.RolledBack?) && w.threads[e.tid].call.Submitter? {
        AbandonFailedPlaced(w, e.tid);
      }
    } else if w.threads[e.tid].phase.target in w.q.nodes {
      ThrownPlaced(w, e.tid, e.failure);
    } else {
      SelfCompletedPlaced(w, e.tid, e.failure);
    }
  }

  // ---------------------------------------------------------------- sequences that are issued again

  // The robbed submission's sequence is the next one to be handed out.
  lemma RewindUnissues(w: World, e: Event)
    requires Inv(w) && Placed(w) && RewindsStolen(w, e)
    ensures !Issued(Next(w, e))
  {
    var s, w' := w.threads[e.tid].call.sequence, Next(w, e);
    assert ThreadOk(w, w.threads[e.tid]) && HasVictim(w, s);
    var x :| x in w.table && InQueue(w.table[x]) && w.table[x].sequence == s;
    hide Inv, Placed;
    assert w'.q.next == s && x in w'.table && w'.table[x] == w.table[x];
  }

  // No event of the run gives a stolen sequence back to the counter.
  ghost predicate Unrewound(w: World, es: seq<Event>) {
    forall k: nat :: k < |es| ==> !RewindsStolen(Run(w, es[..k]), es[k])
  }

  ghost predicate AlwaysIssued(w: World, es: seq<Event>) {
    forall k: nat :: k <= |es| ==> Issued(Run(w, es[..k]))
  }

  lemma UnrewoundSplit(w: World, es: seq<Event>)
    requires es != []
    ensures var n := |es| - 1; Unrewound(w, es) <==> Unrewound(w, es[..n]) && !RewindsStolen(Run(w, es[..n]), es[n])
  {
    hide RewindsStolen;
    var n := |es| - 1;
    assert forall k: nat :: k <= n ==> es[..n][..k] == es[..k];
    if Unrewound(w, es) {
      forall k: nat | k < n ensures !RewindsStolen(Run(w, es[..n][..k]), es[..n][k]) { assert !RewindsStolen(Run(w, es[..k]), es[k]); }
    } else {
      var k: nat :| k < |es| && RewindsStolen(Run(w, es[..k]), es[k]);
      if k < n { assert RewindsStolen(Run(w, es[..n][..k]), es[..n][k]); }
    }
  }

  lemma IssuedSplit(w: World, es: seq<Event>)
    requires es != []
    ensures AlwaysIssued(w, es) <==> AlwaysIssued(w, es[..|es| - 1]) && Issued(Run(w, es))
  {
    hide Issued, Run;
    var n := |es| - 1;
    assert es[..|es|] == es;
    assert forall k: nat :: k <= n ==> es[..n][..k] == es[..k];
    if AlwaysIssued(w, es) {
      assert Issued(Run(w, es[..|es|]));
      forall k: nat | k <= n ensures Issued(Run(w, es[..n][..k])) { assert Issued(Run(w, es[..k])); }
    } else {
      var k: nat :| k <= |es| && !Issued(Run(w, es[..k]));
      if k <= n { assert !Issued(Run(w, es[..n][..k])); }
    }
  }

  lemma PlacedIssued(w: World)
    requires Placed(w)
    ensures Issued(w)
  {
    forall x | x in w.table && InQueue(w.table[x]) ensures 0 < w.table[x].sequence < w.q.next { assert Located(w, x); }
  }

  lemma InitialPlaced(capacity: nat)
    ensures Placed(InitialWorld(capacity)) && Accounted(InitialWorld(capacity))
  {
  }

  lemma {:induction false} RunPlaced(capacity: nat, es: seq<Event>)
    requires Unrewound(InitialWorld(capacity), es)
    ensures Placed(Run(InitialWorld(capacity), es))
    decreases |es|
  {
    var w := InitialWorld(capacity);
    hide Placed, Unrewound, RewindsStolen, Next, Inv, InitialWorld;
    if es == [] {
      InitialPlaced(capacity);
    } else {
      UnrewoundSplit(w, es);
      RunPlaced(capacity, es[..|es| - 1]);
      ReachableInv(capacity, es[..|es| - 1]);
      StepPlaced(Run(w, es[..|es| - 1]), es[|es| - 1]);
    }
  }

  // Every accepted submission's sequence stays below the counter, so that nobody else is handed it,
  // exactly in the runs in which no pump gives a stolen sequence back to the counter.
  lemma {:induction false} IssuedRuns(capacity: nat, es: seq<Event>)
    ensures AlwaysIssued(InitialWorld(capacity), es) <==> Unrewound(InitialWorld(capacity), es)
    decreases |es|
  {
    var w := InitialWorld(capacity);
    hide Placed, Issued, Unrewound, RewindsStolen, Next, Inv, InitialWorld;
    if es == [] {
      InitialPlaced(capacity);
      PlacedIssued(w);
      assert AlwaysIssued(w, []);
      assert Unrewound(w, []) by { NothingRewound(w); }
    } else {
      var fs := es[..|es| - 1];
      IssuedRuns(capacity, fs);
      UnrewoundSplit(w, es);
      IssuedSplit(w, es);
      if Unrewound(w, fs) {
        RunPlaced(capacity, fs);
        ReachableInv(capacity, fs);
        if RewindsStolen(Run(w, fs), es[|fs|]) {
          RewindUnissues(Run(w, fs), es[|fs|]);
        } else {
          RunPlaced(capacity, es);
          PlacedIssued(Run(w, es));
        }
      }
    }
  }

  lemma NothingRewound(w: World)
    ensures Unrewound(w, [])
  {
  }

  // In those runs two submissions never return the same token.
  lemma TokensDistinct(capacity: nat, es: seq<Event>, x: Sub, y: Sub)
    requires Unrewound(InitialWorld(capacity), es)
    requires var t := Run(InitialWorld(capacity), es).table;
      x in t && y in t && x != y && t[x].stage.Returned? && t[y].stage.Returned?
    ensures var t := Run(InitialWorld(capacity), es).table; forall id :: EncodeToken(id, t[x].sequence) != EncodeToken(id, t[y].sequence)
  {
    RunPlaced(capacity, es);
  }

  // Two submissions with one sequence: y has returned its token, x was accepted and not rejected.
  ghost predicate SharedToken(w: World, x: Sub, y: Sub) {
    && x in w.table && y in w.table && x != y && InQueue(w.table[x]) && w.table[y].stage.Returned?
    && w.table[x].sequence == w.table[y].sequence
  }

  function Resubmit(tid: Tid): seq<Event> {
    [ReserveBy(tid), PublishBy(tid), EnterBy(tid)]
  }

  // The next submission of an idle thread after the rewind is handed the stolen sequence.
  lemma ResubmitShares(w: World, tid: Tid, x: Sub)
    requires x in w.table && InQueue(w.table[x]) && w.table[x].sequence == w.q.next && w.subs !in w.table
    requires tid !in w.threads && !w.q.closing && w.q.pumping && w.q.next !in w.q.nodes && w.q.next <= MAX_SEQUENCE
    ensures SharedToken(Run(w, Resubmit(tid)), x, w.subs)
  {
    var w1 := Next(w, ReserveBy(tid));
    var w2 := Next(w1, PublishBy(tid));
    var w3 := Next(w2, EnterBy(tid));
    assert w3.table == w.table[w.subs := Submission(w.q.next, Returned, 0, w.published)];
    hide Next;
    var es := Resubmit(tid);
    assert es[..1] == [ReserveBy(tid)] && es[..2] == [ReserveBy(tid), PublishBy(tid)] && es[..3] == es;
    assert Run(w, es[..2]) == Next(Run(w, es[..2][..1]), es[1]);
    assert es[..2][..1] == es[..1] && es[..1][..0] == [];
    assert Run(w, es[..1]) == Next(Run(w, []), es[0]);
  }

  // The counter never passes the end of the sequences.
  lemma {:induction false} CounterBounded(capacity: nat, es: seq<Event>)
    ensures Run(InitialWorld(capacity), es).q.next <= MAX_SEQUENCE + 1
    decreases |es|
  {
    if es != [] {
      CounterBounded(capacity, es[..|es| - 1]);
      var w := Run(InitialWorld(capacity), es[..|es| - 1]);
      hide InitialWorld, Run;
      StepBounded(w, es[|es| - 1]);
    }
  }

  lemma RegionsBounded(q: Queue)
    requires q.next <= MAX_SEQUENCE + 1
    ensures Reserve(q).0.next <= MAX_SEQUENCE + 1
    ensures EnterPump(q).0.next == q.next && Pick(q).0.next == q.next
    ensures forall s, sub :: Publish(q, s, sub).0.next == q.next
    ensures forall s :: Abandon(q, s).next <= q.next && Park(q, s).next == q.next
    ensures forall s, pre :: FailDispatch(q, s, pre).next == q.next
    ensures forall s, f :: Complete(q, s, f).0.next == q.next
    ensures forall s, f :: CommitFailure(q, s, f).0.next == q.next
  {
    hide Scan, RemoveFirst;
  }

  lemma SubmitBounded(w: World, e: Event)
    requires w.q.next <= MAX_SEQUENCE + 1 && (e.ReserveBy? || e.PrepareThrows? || e.PublishBy? || e.AbandonBy?)
    ensures Next(w, e).q.next <= MAX_SEQUENCE + 1
  {
    hide Reserve, Publish, Abandon, StampOf, DoCompleteFailed, DoComplete, DoEnter, DoPick, DoUnavailable, DoThrow;
    RegionsBounded(w.q);
  }

  lemma PumpBounded(w: World, e: Event)
    requires w.q.next <= MAX_SEQUENCE + 1 && (e.EnterBy? || e.PickBy? || e.DispatchUnavailable?)
    ensures Next(w, e).q.next <= MAX_SEQUENCE + 1
  {
    hide EnterPump, Pick, Park, StampOf, DoReserve, DoPublish, DoUnwind, DoAbandonFailed, DoAbandonUnpublished, DoThrow, DoCompleteFailed, DoComplete;
    RegionsBounded(w.q);
  }

  lemma ThrowBounded(w: World, e: Event)
    requires w.q.next <= MAX_SEQUENCE + 1 && (e.DispatchReturns? || e.DispatchThrows? || e.CompleteFailed? || e.EnterNested?)
    ensures Next(w, e).q.next <= MAX_SEQUENCE + 1
  {
    hide FailDispatch, Complete, StampOf, DoReserve, DoPublish, DoUnwind, DoAbandonFailed, DoAbandonUnpublished, DoEnter, DoPick, DoUnavailable, DoComplete;
    RegionsBounded(w.q);
  }

  lemma OutsideBounded(w: World, e: Event)
    requires w.q.next <= MAX_SEQUENCE + 1 && (e.CompleteBy? || e.CommitFor? || e.FailAfterCompletion? || e.Close?)
    ensures Next(w, e).q.next <= MAX_SEQUENCE + 1
  {
    hide Complete, CommitFailure, DoReserve, DoPublish, DoUnwind, DoAbandonFailed, DoAbandonUnpublished, DoEnter, DoPick, DoUnavailable, DoThrow,
      DoCompleteFailed;
    RegionsBounded(w.q);
  }

  lemma StepBounded(w: World, e: Event)
    requires w.q.next <= MAX_SEQUENCE + 1
    ensures Next(w, e).q.next <= MAX_SEQUENCE + 1
  {
    hide Next;
    if e.ReserveBy? || e.PrepareThrows? || e.PublishBy? || e.AbandonBy? {
      SubmitBounded(w, e);
    } else if e.EnterBy? || e.PickBy? || e.DispatchUnavailable? {
      PumpBounded(w, e);
    } else if e.DispatchReturns? || e.DispatchThrows? || e.CompleteFailed? || e.EnterNested? {
      ThrowBounded(w, e);
    } else {
      OutsideBounded(w, e);
    }
  }

  // After the rewind the robbed submission's sequence is the next one.
  lemma RewoundSequence(w: World, e: Event) returns (x: Sub)
    requires Inv(w) && Placed(w) && RewindsStolen(w, e)
    ensures var w1, s := Next(w, e), w.threads[e.tid].call.sequence;
      && x in w1.table && InQueue(w1.table[x]) && w1.table[x].sequence == w1.q.next == s && s + 1 == w.q.next
      && w1.subs == w.subs && w1.q.nodes == w.q.nodes && s !in w1.q.nodes && w1.q.closing == w.q.closing && w1.q.pumping
      && w1.threads.Keys == w.threads.Keys && w1.subs !in w1.table
  {
    var s := w.threads[e.tid].call.sequence;
    assert ThreadOk(w, w.threads[e.tid]) && TargetOk(w, w.threads[e.tid]) && HasVictim(w, s);
    x :| x in w.table && InQueue(w.table[x]) && w.table[x].sequence == s;
    assert w.subs !in w.table && w.q.pumping;
    hide Inv, Placed, TargetOk, ThreadOk;
  }

  // So a token is returned twice as soon as an idle thread submits after such a rewind.
  lemma RewoundIsReissued(capacity: nat, es: seq<Event>, e: Event, tid: Tid)
    requires Unrewound(InitialWorld(capacity), es)
    requires var w := Run(InitialWorld(capacity), es); RewindsStolen(w, e) && !w.q.closing && tid !in w.threads
    ensures exists x, y :: SharedToken(Run(InitialWorld(capacity), es + [e] + Resubmit(tid)), x, y)
  {
    var w0 := InitialWorld(capacity);
    var w := Run(w0, es);
    RunPlaced(capacity, es);
    ReachableInv(capacity, es);
    CounterBounded(capacity, es);
    RunAppend(w0, es, [e]);
    RunAppend(w0, es + [e], Resubmit(tid));
    assert Run(w, [e]) == Next(w, e) by { assert [e][..0] == []; }
    hide Run, InitialWorld, Unrewound, Next, Inv, Placed, Resubmit, SharedToken;
    var x := RewoundSequence(w, e);
    ResubmitShares(Next(w, e), tid, x);
  }

  // ---------------------------------------------------------------- submissions that are lost

  // A theft loses the submission whose node it erases.
  lemma TheftLoses(w: World, e: Event)
    requires Inv(w) && Steals(w, e)
    ensures !Accounted(Next(w, e))
  {
    var t := w.threads[e.tid].phase.target;
    assert NodeOk(w, t);
    assert t !in w.done;
    hide ControlInv, QueueInv, TableInv, NodesInv, DoneInv, RemoveFirst;
    var x, w' := w.q.nodes[t].sub, Next(w, e);
    assert x in w'.table && InQueue(w'.table[x]) && w'.table[x].sequence == t;
    assert t !in w'.q.nodes && t !in w'.done;
  }

  lemma PublishAccounts(w: World, tid: Tid)
    requires Inv(w) && Accounted(w) && AtPrepare(w, tid)
    ensures Accounted(DoPublish(w, tid, w.threads[tid].sub))
  {
    assert ThreadOk(w, w.threads[tid]);
    hide Inv;
  }

  lemma AbandonAccounts(w: World, tid: Tid)
    requires Accounted(w)
    ensures Accounted(Next(w, AbandonBy(tid)))
  {
  }

  // A rejected submission erases its own node only.
  lemma ThrowAccounts(w: World, tid: Tid, failure: Failure)
    requires Inv(w) && Accounted(w) && AtDispatch(w, tid) && !Steals(w, DispatchThrows(tid, failure))
    requires Preaccepts(w.threads[tid].call, w.threads[tid].phase.target)
    ensures Accounted(Next(w, DispatchThrows(tid, failure)))
  {
    var t, x := w.threads[tid].phase.target, w.threads[tid].call.sub;
    if t in w.q.nodes {
      ThrownNode(w, tid, t);
      assert t !in w.done;
      assert OwnsNode(w, x);
    }
    hide Inv, RemoveFirst;
  }

  // Exactly the thefts break the accounting.
  lemma AccountedUnlessStolen(w: World, e: Event)
    requires Inv(w) && Accounted(w)
    ensures Accounted(Next(w, e)) <==> !Steals(w, e)
  {
    hide Inv, Accounted, Kept, DoPublish, DoThrow, DoAbandonFailed, DoAbandonUnpublished;
    if Steals(w, e) {
      TheftLoses(w, e);
    } else if !Loses(w, e) {
      OthersKeep(w, e);
      KeptAccounted(w, Next(w, e));
    } else if e.PublishBy? {
      if AtPrepare(w, e.tid) { PublishAccounts(w, e.tid); }
    } else if e.AbandonBy? {
      AbandonAccounts(w, e.tid);
    } else {
      ThrowAccounts(w, e.tid, e.failure);
    }
  }

  // No event of the run steals.
  ghost predicate Theftless(w: World, es: seq<Event>) {
    forall k: nat :: k < |es| ==> !Steals(Run(w, es[..k]), es[k])
  }

  ghost predicate AlwaysAccounted(w: World, es: seq<Event>) {
    forall k: nat :: k <= |es| ==> Accounted(Run(w, es[..k]))
  }

  lemma TheftlessSplit(w: World, es: seq<Event>)
    requires es != []
    ensures var n := |es| - 1; Theftless(w, es) <==> Theftless(w, es[..n]) && !Steals(Run(w, es[..n]), es[n])
  {
    hide Steals;
    var n := |es| - 1;
    assert forall k: nat :: k <= n ==> es[..n][..k] == es[..k];
    if Theftless(w, es) {
      forall k: nat | k < n ensures !Steals(Run(w, es[..n][..k]), es[..n][k]) { assert !Steals(Run(w, es[..k]), es[k]); }
    } else {
      var k: nat :| k < |es| && Steals(Run(w, es[..k]), es[k]);
      if k < n { assert Steals(Run(w, es[..n][..k]), es[..n][k]); }
    }
  }

  lemma AccountedSplit(w: World, es: seq<Event>)
    requires es != []
    ensures AlwaysAccounted(w, es) <==> AlwaysAccounted(w, es[..|es| - 1]) && Accounted(Run(w, es))
  {
    hide Accounted, Run;
    var n := |es| - 1;
    assert es[..|es|] == es;
    assert forall k: nat :: k <= n ==> es[..n][..k] == es[..k];
    if AlwaysAccounted(w, es) {
      assert Accounted(Run(w, es[..|es|]));
      forall k: nat | k <= n ensures Accounted(Run(w, es[..n][..k])) { assert Accounted(Run(w, es[..k])); }
    } else {
      var k: nat :| k <= |es| && !Accounted(Run(w, es[..k]));
      if k <= n { assert !Accounted(Run(w, es[..n][..k])); }
    }
  }

  lemma AlwaysLast(w: World, es: seq<Event>)
    requires AlwaysAccounted(w, es)
    ensures Accounted(Run(w, es))
  {
    hide Accounted, Run;
    assert es[..|es|] == es;
  }

  // Over whole runs: nothing accepted is ever lost exactly when no event steals.
  lemma {:induction false} AccountedRuns(capacity: nat, es: seq<Event>)
    ensures AlwaysAccounted(InitialWorld(capacity), es) <==> Theftless(InitialWorld(capacity), es)
    decreases |es|
  {
    var w := InitialWorld(capacity);
    hide Accounted, Steals, Next, Inv, InitialWorld;
    if es == [] {
      InitialPlaced(capacity);
    } else {
      var fs := es[..|es| - 1];
      AccountedRuns(capacity, fs);
      hide AlwaysAccounted, Theftless;
      TheftlessSplit(w, es);
      AccountedSplit(w, es);
      if Theftless(w, fs) {
        AlwaysLast(w, fs);
        ReachableInv(capacity, fs);
        AccountedUnlessStolen(Run(w, fs), es[|fs|]);
      }
    }
  }

  // Without a theft there is nothing to give back.
  lemma AccountedHasNoThief(w: World, a: Tid)
    requires Inv(w) && Placed(w) && Accounted(w) && a in w.threads
    ensures !Thief(w.threads[a])
  {
    assert TargetOk(w, w.threads[a]);
    assert Thief(w.threads[a]) ==> HasVictim(w, w.threads[a].call.sequence);
  }

  lemma {:induction false} TheftlessUnrewound(capacity: nat, es: seq<Event>)
    requires Theftless(InitialWorld(capacity), es)
    ensures Unrewound(InitialWorld(capacity), es)
    decreases |es|
  {
    var w := InitialWorld(capacity);
    hide Accounted, Placed, Steals, Next, Inv, InitialWorld, Theftless, Unrewound, AlwaysAccounted;
    if es == [] {
      NothingRewound(w);
    } else {
      var fs, e := es[..|es| - 1], es[|es| - 1];
      TheftlessSplit(w, es);
      UnrewoundSplit(w, es);
      TheftlessUnrewound(capacity, fs);
      AccountedRuns(capacity, fs);
      AlwaysLast(w, fs);
      RunPlaced(capacity, fs);
      ReachableInv(capacity, fs);
      if RewindsStolen(Run(w, fs), e) { AccountedHasNoThief(Run(w, fs), e.tid); }
    }
  }

  // A sequence skipped at one point of a run without thefts is the token of no submission, then or later.
  lemma SkippedNeverIssued(capacity: nat, es: seq<Event>, fs: seq<Event>, s: nat, x: Sub)
    requires Theftless(InitialWorld(capacity), es + fs)
    requires s in Run(InitialWorld(capacity), es).q.skipped
    requires var t := Run(InitialWorld(capacity), es + fs).table; x in t && InQueue(t[x])
    ensures Run(InitialWorld(capacity), es + fs).table[x].sequence != s
  {
    var w0 := InitialWorld(capacity);
    AccountedRuns(capacity, es + fs);
    ReachableInv(capacity, es + fs);
    RunAppend(w0, es, fs);
    RunGrows(Run(w0, es), fs);
    hide Run, InitialWorld, Theftless;
    AlwaysLast(w0, es + fs);
  }

  // wait takes every token that a submission without thefts returned, and refuses what was never accepted.
  lemma WaitKnowsAccepted(capacity: nat, es: seq<Event>, x: Sub)
    requires Theftless(InitialWorld(capacity), es)
    requires var t := Run(InitialWorld(capacity), es).table; x in t && InQueue(t[x])
    ensures var w := Run(InitialWorld(capacity), es); !WaitLook(w.q, w.table[x].sequence).NeverSubmitted?
    ensures var q := Run(InitialWorld(capacity), es).q;
      forall s :: s == 0 || s >= q.next || s in q.skipped ==> WaitLook(q, s).NeverSubmitted?
  {
    var w0 := InitialWorld(capacity);
    AccountedRuns(capacity, es);
    ReachableInv(capacity, es);
    AlwaysLast(w0, es);
    hide Run, InitialWorld, Theftless, ControlInv, TableInv, NodesInv;
  }
}

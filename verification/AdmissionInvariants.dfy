// Invariants of the admission protocol and their preservation by the events of the submitting and
// pumping threads.

module AdmissionInvariants {
  import opened SizeT
  import opened AdmissionQueue
  import opened AdmissionProtocol

  // ---------------------------------------------------------------- invariants

  ghost predicate FifoDistinct(fifo: seq<nat>) {
    forall i, j :: 0 <= i < j < |fifo| ==> fifo[i] != fifo[j]
  }

  // The admission order lists exactly the nodes; the first `credits` of them are the executing ones.
  ghost predicate QueueInv(q: Queue) {
    && FifoDistinct(q.fifo)
    && (forall s :: s in q.fifo <==> s in q.nodes)
    && q.credits <= |q.fifo| && q.credits <= q.capacity && q.capacity >= 1
    && (forall i :: 0 <= i < |q.fifo| ==> (q.nodes[q.fifo[i]].executing <==> i < q.credits))
    && (forall s :: s in q.nodes ==> NodeFlags(q.nodes[s]))
    && q.next >= 1
    && (forall s :: s in q.nodes || s in q.skipped ==> 0 < s < q.next)
    && (forall s :: s in q.nodes ==> s !in q.skipped)
  }

  // A parked or waiting node still has both closures.
  predicate NodeFlags(n: Node) {
    (n.dispatch <==> !n.executing) && (!n.executing ==> n.rollback)
  }

  predicate InPump(pc: Pc) {
    pc.Pumping? && !pc.phase.Entering?
  }

  // At most one thread pumps, and the flag says whether one does.
  ghost predicate PumpInv(w: World) {
    && (forall a, b :: a in w.threads && b in w.threads && InPump(w.threads[a]) && InPump(w.threads[b]) ==> a == b)
    && (w.q.pumping <==> exists a :: a in w.threads && InPump(w.threads[a]))
  }

  // The sequence is reserved, and neither accepted nor given back.
  ghost predicate FreeSequence(w: World, s: nat) {
    0 < s < w.q.next && s !in w.q.skipped && s !in w.q.nodes && s !in w.done
  }

  // Accepted: it still has its node, has completed, or lost its node to a throw that ran its rollback.
  ghost predicate AcceptedFor(w: World, r: Submission, sub: Sub) {
    (r.sequence in w.q.nodes && w.q.nodes[r.sequence].sub == sub) || r.sequence in w.done || r.rollbacks == 1
  }

  ghost predicate SubmissionOk(w: World, sub: Sub)
    requires sub in w.table
  {
    var r := w.table[sub];
    && r.rollbacks <= 1
    && match r.stage
       case Held => FreeSequence(w, r.sequence)
       case Accepted => AcceptedFor(w, r, sub)
       case Returned => AcceptedFor(w, r, sub)
       case Released => r.rollbacks == 1
       case SelfCompleted => r.sequence in w.done
       case Threw(self) => !self ==> r.rollbacks == 1
  }

  // Every node belongs to the accepted submission whose closures it holds.
  ghost predicate NodeOk(w: World, s: nat)
    requires s in w.q.nodes
  {
    var n := w.q.nodes[s];
    && n.sub in w.table
    && (w.table[n.sub].stage.Accepted? || w.table[n.sub].stage.Returned?)
    && w.table[n.sub].sequence == s
    && w.table[n.sub].rollbacks == (if n.rollback then 0 else 1)
  }

  function SubOf(pc: Pc): Option<Sub> {
    match pc
    case Preparing(sub) => Some(sub)
    case Unwinding(sub) => Some(sub)
    case Pumping(Submitter(sub, _, _), _) => Some(sub)
    case _ => None
  }

  // The stage of a thread's own submission fits its place in the call.
  ghost predicate ThreadOk(w: World, pc: Pc) {
    && (SubOf(pc).Some? ==> SubOf(pc).value in w.table)
    && match pc
       case Preparing(sub) => w.table[sub].stage.Held? && w.table[sub].rollbacks == 0
       case Unwinding(sub) => w.table[sub].stage.Held? && w.table[sub].rollbacks == 1
       case Pumping(Completer, phase) => !phase.RolledBack?
       case Pumping(Submitter(sub, s, failed), phase) =>
         && w.table[sub].sequence == s
         && if phase.RolledBack? then w.table[sub].rollbacks == 1 && (if failed then w.table[sub].stage.Released? else w.table[sub].stage.Held?)
            else if failed then w.table[sub].stage.Released? || w.table[sub].stage.SelfCompleted?
            else w.table[sub].stage.Accepted?
  }

  // A pump that erased the node of another submission and is about to give its sequence back.
  predicate Thief(pc: Pc) {
    pc.Pumping? && pc.phase.RolledBack? && pc.call.Submitter? && pc.call.failed
  }

  // The node being dispatched is the last of the executing prefix; a stolen sequence is nobody else's.
  ghost predicate TargetOk(w: World, pc: Pc) {
    && (pc.Pumping? && pc.phase.Dispatching? ==>
          var t := pc.phase.target;
          && (t in w.q.nodes || t in w.done)
          && (t in w.q.nodes ==> 0 < w.q.credits <= |w.q.fifo| && w.q.fifo[w.q.credits - 1] == t && w.q.nodes[t].rollback))
    && (Thief(pc) ==> Unheld(w, pc.call.sequence))
  }

  ghost predicate Unheld(w: World, s: nat) {
    FreeSequence(w, s) && forall sub :: sub in w.table && w.table[sub].stage.Held? ==> w.table[sub].sequence != s
  }

  ghost predicate ThreadsInv(w: World) {
    && (forall a :: a in w.threads ==> ThreadOk(w, w.threads[a]) && TargetOk(w, w.threads[a]))
    && (forall a, b :: a in w.threads && b in w.threads && a != b && SubOf(w.threads[a]).Some?
          ==> SubOf(w.threads[a]) != SubOf(w.threads[b]))
  }

  // Submissions outside the queue hold different sequences.
  ghost predicate TableInv(w: World) {
    && (forall sub :: sub in w.table ==> sub < w.subs && SubmissionOk(w, sub))
    && (forall x, y :: x in w.table && y in w.table && x != y && w.table[x].stage.Held? && w.table[y].stage.Held?
          ==> w.table[x].sequence != w.table[y].sequence)
  }

  ghost predicate NodesInv(w: World) {
    forall s :: s in w.q.nodes ==> NodeOk(w, s)
  }

  ghost predicate DoneInv(w: World) {
    forall s :: s in w.done ==> 0 < s < w.q.next && s !in w.q.skipped && s !in w.q.nodes
  }

  ghost predicate ControlInv(w: World) {
    PumpInv(w) && ThreadsInv(w)
  }

  ghost predicate DataInv(w: World) {
    QueueInv(w.q) && TableInv(w) && NodesInv(w) && DoneInv(w)
  }

  ghost predicate Inv(w: World) {
    ControlInv(w) && DataInv(w)
  }

  lemma InitialInv(maxInFlight: nat)
    ensures Inv(InitialWorld(maxInFlight))
  {
  }

  // ---------------------------------------------------------------- the queue regions

  lemma {:induction false} ScanFindsFirstIdle(q: Queue, i: nat)
    requires QueueInv(q) && i <= q.credits
    ensures Scan(q.fifo, q.nodes, i) == (q.fifo, q.credits)
    decreases q.credits - i
  {
    if i < |q.fifo| { assert q.fifo[i] in q.nodes; }
    if i < q.credits { ScanFindsFirstIdle(q, i + 1); }
  }

  // A pick takes the first node that is not executing, which extends the executing prefix by one.
  lemma PickQueue(q: Queue)
    requires QueueInv(q)
    ensures QueueInv(Pick(q).0)
    ensures Pick(q).1.None? <==> q.closing || q.credits == q.capacity || q.credits == |q.fifo|
    ensures Pick(q).1.None? ==> Pick(q).0 == q.(pumping := false)
    ensures Pick(q).1.Some? ==>
      var s := q.fifo[q.credits];
      && Pick(q).1.value == s && s in q.nodes && !q.nodes[s].executing
      && Pick(q).0 == q.(nodes := q.nodes[s := q.nodes[s].(executing := true, dispatch := false)], credits := q.credits + 1)
  {
    ScanFindsFirstIdle(q, 0);
    if q.credits < |q.fifo| && q.credits < q.capacity { PickAt(q, q.fifo[q.credits]); }
  }

  lemma PickAt(q: Queue, s: nat)
    requires QueueInv(q) && q.credits < |q.fifo| && q.credits < q.capacity && s == q.fifo[q.credits]
    ensures s in q.nodes && !q.nodes[s].executing
    ensures QueueInv(q.(nodes := q.nodes[s := q.nodes[s].(executing := true, dispatch := false)], credits := q.credits + 1))
  {
    assert s in q.fifo;
  }

  lemma ParkQueue(q: Queue, t: nat)
    requires QueueInv(q)
    requires t in q.nodes ==> 0 < q.credits <= |q.fifo| && q.fifo[q.credits - 1] == t && q.nodes[t].rollback
    ensures QueueInv(Park(q, t))
  {
  }

  // Position of a node in the admission order.
  ghost function PlaceOf(q: Queue, s: nat): (i: nat)
    requires QueueInv(q) && s in q.nodes
    ensures i < |q.fifo| && q.fifo[i] == s
  {
    assert s in q.fifo;
    var i :| 0 <= i < |q.fifo| && q.fifo[i] == s;
    i
  }

  // q' is q without the node at place i and without its credit.
  ghost predicate ErasedAt(q: Queue, i: nat, q': Queue)
    requires i < |q.fifo|
  {
    && q'.nodes == q.nodes - {q.fifo[i]}
    && |q'.fifo| == |q.fifo| - 1
    && (forall k :: 0 <= k < i ==> q'.fifo[k] == q.fifo[k])
    && (forall k :: i <= k < |q'.fifo| ==> q'.fifo[k] == q.fifo[k + 1])
    && q'.credits == if i < q.credits then q.credits - 1 else q.credits
  }

  lemma EraseAt(q: Queue, s: nat, q': Queue)
    requires QueueInv(q) && s in q.nodes
    requires q'.nodes == q.nodes - {s} && q'.fifo == RemoveFirst(q.fifo, s)
    requires q'.credits == if q.nodes[s].executing then Decrement(q.credits) else q.credits
    ensures ErasedAt(q, PlaceOf(q, s), q')
  {
    var i := PlaceOf(q, s);
    assert q.nodes[q.fifo[i]].executing <==> i < q.credits;
    assert FifoDistinct(q.fifo);
    hide QueueInv, RemoveFirst;
    RemovedPlaces(q.fifo, s, i);
  }

  lemma RemovedPlaces(fifo: seq<nat>, s: nat, i: nat)
    requires FifoDistinct(fifo) && i < |fifo| && fifo[i] == s
    ensures |RemoveFirst(fifo, s)| == |fifo| - 1
    ensures forall k :: 0 <= k < i ==> RemoveFirst(fifo, s)[k] == fifo[k]
    ensures forall k :: i <= k < |fifo| - 1 ==> RemoveFirst(fifo, s)[k] == fifo[k + 1]
  {
    RemoveFirstAt(fifo, s, i);
  }

  lemma ErasedMembers(q: Queue, i: nat, q': Queue, x: nat)
    requires QueueInv(q) && i < |q.fifo| && ErasedAt(q, i, q')
    ensures x in q'.fifo <==> x in q'.nodes
  {
    assert q.fifo[i] in q.nodes;
    if x in q'.fifo {
      var k :| 0 <= k < |q'.fifo| && q'.fifo[k] == x;
      assert q.fifo[if k < i then k else k + 1] == x;
    }
    if x in q'.nodes {
      var k := PlaceOf(q, x);
      assert k != i;
      assert q'.fifo[if k < i then k else k - 1] == x;
    }
  }

  lemma ErasedOrder(q: Queue, i: nat, q': Queue)
    requires QueueInv(q) && i < |q.fifo| && ErasedAt(q, i, q')
    ensures FifoDistinct(q'.fifo)
    ensures q'.credits <= |q'.fifo| && q'.credits <= q.credits
    ensures forall k :: 0 <= k < |q'.fifo| ==> q'.fifo[k] in q'.nodes && (q'.nodes[q'.fifo[k]].executing <==> k < q'.credits)
  {
    forall k | 0 <= k < |q'.fifo| ensures q'.fifo[k] in q'.nodes && (q'.nodes[q'.fifo[k]].executing <==> k < q'.credits) {
      var k0 := if k < i then k else k + 1;
      assert q'.fifo[k] == q.fifo[k0] && q.fifo[k0] in q.nodes && q.fifo[k0] != q.fifo[i];
    }
  }

  // Erasing a node together with its credit keeps the queue invariant.
  lemma EraseQueue(q: Queue, s: nat, q': Queue)
    requires QueueInv(q) && s in q.nodes
    requires q'.nodes == q.nodes - {s} && q'.fifo == RemoveFirst(q.fifo, s)
    requires q'.credits == if q.nodes[s].executing then Decrement(q.credits) else q.credits
    requires q'.next == q.next && q'.skipped == q.skipped && q'.capacity == q.capacity
    ensures QueueInv(q')
  {
    var i := PlaceOf(q, s);
    EraseAt(q, s, q');
    ErasedOrder(q, i, q');
    forall x ensures x in q'.fifo <==> x in q'.nodes { ErasedMembers(q, i, q', x); }
  }

  // The last executing node stays last when another node is erased.
  lemma EraseKeepsTarget(q: Queue, s: nat, q': Queue, t: nat)
    requires QueueInv(q) && s in q.nodes && t != s
    requires q'.nodes == q.nodes - {s} && q'.fifo == RemoveFirst(q.fifo, s)
    requires q'.credits == if q.nodes[s].executing then Decrement(q.credits) else q.credits
    requires 0 < q.credits <= |q.fifo| && q.fifo[q.credits - 1] == t
    ensures 0 < q'.credits <= |q'.fifo| && q'.fifo[q'.credits - 1] == t
  {
    var i := PlaceOf(q, s);
    EraseAt(q, s, q');
    ErasedOrder(q, i, q');
    assert i != q.credits - 1;
  }

  lemma PublishQueue(q: Queue, s: nat, sub: nat)
    requires QueueInv(q) && 0 < s < q.next && s !in q.skipped && s !in q.nodes && !q.closing
    ensures QueueInv(Publish(q, s, sub).0)
  {
    var q' := Publish(q, s, sub).0;
    forall x ensures x in q'.fifo <==> x in q'.nodes {
      if x in q.nodes { assert q'.fifo[PlaceOf(q, x)] == x; }
      if x == s { assert q'.fifo[|q.fifo|] == s; }
    }
  }

  lemma AbandonQueue(q: Queue, s: nat)
    requires QueueInv(q) && 0 < s < q.next && s !in q.nodes
    requires forall x :: x in q.skipped ==> x != s
    ensures QueueInv(Abandon(q, s))
  {
  }

  // ---------------------------------------------------------------- frames

  // Pumping is untouched when the flag and every thread's place relative to the pump are.
  lemma PumpFrame(w: World, w': World)
    requires PumpInv(w) && w'.q.pumping == w.q.pumping
    requires forall a :: (a in w.threads && InPump(w.threads[a])) <==> (a in w'.threads && InPump(w'.threads[a]))
    ensures PumpInv(w')
  {
  }

  lemma PumpEntered(w: World, w': World, tid: Tid)
    requires PumpInv(w) && !w.q.pumping && w'.q.pumping && tid in w'.threads && InPump(w'.threads[tid])
    requires forall a :: a in w'.threads && a != tid ==> a in w.threads && w'.threads[a] == w.threads[a]
    ensures PumpInv(w')
  {
  }

  lemma PumpLeft(w: World, w': World, tid: Tid)
    requires PumpInv(w) && tid in w.threads && InPump(w.threads[tid]) && !w'.q.pumping && tid !in w'.threads
    requires forall a :: a in w'.threads ==> a in w.threads && w'.threads[a] == w.threads[a]
    ensures PumpInv(w')
  {
  }

  ghost predicate OthersKept(w: World, w': World, tid: Tid) {
    forall a :: a != tid ==> ((a in w.threads <==> a in w'.threads) && (a in w.threads ==> w'.threads[a] == w.threads[a]))
  }

  ghost predicate RecordsKept(w: World, w': World, x: Sub) {
    forall sub :: sub != x ==> ((sub in w.table <==> sub in w'.table) && (sub in w.table ==> w'.table[sub] == w.table[sub]))
  }

  // Only thread tid moved, and only the record of submission x changed.
  lemma ThreadsFrame(w: World, w': World, tid: Tid, x: Sub)
    requires ThreadsInv(w) && OthersKept(w, w', tid) && RecordsKept(w, w', x)
    requires forall a :: a in w.threads && a != tid ==>
               (SubOf(w.threads[a]) != Some(x) || ThreadOk(w', w.threads[a])) && TargetOk(w', w.threads[a])
    requires tid in w'.threads ==> ThreadOk(w', w'.threads[tid]) && TargetOk(w', w'.threads[tid])
    requires tid in w'.threads ==> (forall a ::
               a in w.threads && a != tid && SubOf(w.threads[a]).Some? ==> SubOf(w.threads[a]) != SubOf(w'.threads[tid]))
    ensures ThreadsInv(w')
  {
    forall a | a in w'.threads ensures ThreadOk(w', w'.threads[a]) && TargetOk(w', w'.threads[a]) {
      if a != tid { assert ThreadOk(w, w.threads[a]); }
    }
    forall a, b | a in w'.threads && b in w'.threads && a != b && SubOf(w'.threads[a]).Some?
      ensures SubOf(w'.threads[a]) != SubOf(w'.threads[b])
    {
      if a != tid && b != tid { assert a in w.threads && b in w.threads; }
    }
  }

  // Sequence s has the same standing in both worlds.
  ghost predicate SameStanding(w: World, w': World, s: nat) {
    && (s in w.q.nodes <==> s in w'.q.nodes)
    && (s in w.q.nodes ==> w.q.nodes[s].sub == w'.q.nodes[s].sub)
    && (s in w.q.skipped <==> s in w'.q.skipped)
    && (s in w.done <==> s in w'.done)
    && (s < w.q.next <==> s < w'.q.next)
  }

  // What is known of the submission depends on where its sequence is.
  predicate HasSequence(r: Submission) {
    r.stage.Held? || r.stage.Accepted? || r.stage.Returned? || r.stage.SelfCompleted?
  }

  lemma TableFrame(w: World, w': World, x: Sub)
    requires TableInv(w) && RecordsKept(w, w', x) && w.subs <= w'.subs
    requires forall sub :: sub in w.table && sub != x && HasSequence(w.table[sub])
               ==> SameStanding(w, w', w.table[sub].sequence) || SubmissionOk(w', sub)
    requires x in w'.table ==> x < w'.subs && SubmissionOk(w', x)
    requires x in w'.table && w'.table[x].stage.Held? ==>
               forall y :: y in w.table && y != x && w.table[y].stage.Held? ==> w.table[y].sequence != w'.table[x].sequence
    ensures TableInv(w')
  {
    forall sub | sub in w'.table ensures sub < w'.subs && SubmissionOk(w', sub) {
      if sub != x { assert SubmissionOk(w, sub); }
    }
    forall a, b | a in w'.table && b in w'.table && a != b && w'.table[a].stage.Held? && w'.table[b].stage.Held?
      ensures w'.table[a].sequence != w'.table[b].sequence
    {
    }
  }

  // A sequence that a submission holds is not the one another submission holds.
  lemma NodesFrame(w: World, w': World, x: Sub, s0: nat)
    requires NodesInv(w) && RecordsKept(w, w', x)
    requires forall s :: s in w'.q.nodes && s != s0 ==>
               (s in w.q.nodes && w.q.nodes[s].sub != x
                && w.q.nodes[s].sub == w'.q.nodes[s].sub && w.q.nodes[s].rollback == w'.q.nodes[s].rollback)
    requires s0 in w'.q.nodes ==> NodeOk(w', s0)
    ensures NodesInv(w')
  {
    forall s | s in w'.q.nodes ensures NodeOk(w', s) {
      if s != s0 { assert NodeOk(w, s); }
    }
  }

  // ---------------------------------------------------------------- preservation, event by event

  // Threads outside the pump dispatch nothing.
  lemma OthersDispatchNothing(w: World, w': World, tid: Tid)
    requires PumpInv(w) && tid in w.threads && InPump(w.threads[tid])
    ensures forall a :: a in w.threads && a != tid ==> TargetOk(w', w.threads[a])
  {
  }

  lemma ReserveControl(w: World, tid: Tid)
    requires Inv(w) && tid !in w.threads
    ensures ControlInv(DoReserve(w, tid))
  {
    var w' := DoReserve(w, tid);
    if Reserve(w.q).1.Reserved? {
      PumpFrame(w, w');
      forall a | a in w.threads ensures SubOf(w.threads[a]) != Some(w.subs) && TargetOk(w', w.threads[a]) {
        assert ThreadOk(w, w.threads[a]) && TargetOk(w, w.threads[a]);
      }
      hide PumpInv, TargetOk, DataInv;
      ThreadsFrame(w, w', tid, w.subs);
    }
  }

  lemma ReserveData(w: World, tid: Tid)
    requires Inv(w) && tid !in w.threads
    ensures DataInv(DoReserve(w, tid))
  {
    hide ControlInv;
    var w' := DoReserve(w, tid);
    if Reserve(w.q).1.Reserved? {
      TableFrame(w, w', w.subs);
      forall s | s in w.q.nodes ensures w.q.nodes[s].sub != w.subs { assert NodeOk(w, s); }
      NodesFrame(w, w', w.subs, 0);
    }
  }

  lemma UnwindControl(w: World, tid: Tid)
    requires Inv(w) && AtPrepare(w, tid)
    ensures ControlInv(DoUnwind(w, tid, w.threads[tid].sub))
  {
    var w', x := DoUnwind(w, tid, w.threads[tid].sub), w.threads[tid].sub;
    assert ThreadOk(w, w.threads[tid]);
    hide DataInv;
    PumpFrame(w, w');
    hide PumpInv;
    ThreadsFrame(w, w', tid, x);
  }

  lemma UnwindData(w: World, tid: Tid)
    requires Inv(w) && AtPrepare(w, tid)
    ensures DataInv(DoUnwind(w, tid, w.threads[tid].sub))
  {
    var w', x := DoUnwind(w, tid, w.threads[tid].sub), w.threads[tid].sub;
    assert ThreadOk(w, w.threads[tid]) && SubmissionOk(w, x);
    hide ControlInv, QueueInv;
    TableFrame(w, w', x);
    NodesFrame(w, w', x, 0);
  }

  lemma UnwindPreserves(w: World, tid: Tid)
    requires Inv(w) && AtPrepare(w, tid)
    ensures Inv(DoUnwind(w, tid, w.threads[tid].sub))
  {
    UnwindControl(w, tid);
    UnwindData(w, tid);
    hide ControlInv, DataInv, DoUnwind;
  }

  // A publication that is refused unwinds like a failed preparation.
  lemma UnpublishedUnwinds(w: World, tid: Tid)
    requires AtPrepare(w, tid)
    requires !Publish(w.q, w.table[w.threads[tid].sub].sequence, w.threads[tid].sub).1.Published?
    ensures DoPublish(w, tid, w.threads[tid].sub) == DoUnwind(w, tid, w.threads[tid].sub)
  {
  }

  lemma PublishControl(w: World, tid: Tid)
    requires Inv(w) && AtPrepare(w, tid)
    requires Publish(w.q, w.table[w.threads[tid].sub].sequence, w.threads[tid].sub).1.Published?
    ensures ControlInv(DoPublish(w, tid, w.threads[tid].sub))
  {
    var w', x := DoPublish(w, tid, w.threads[tid].sub), w.threads[tid].sub;
    assert ThreadOk(w, w.threads[tid]) && SubmissionOk(w, x);
    PumpFrame(w, w');
    forall a | a in w.threads && a != tid ensures TargetOk(w', w.threads[a]) { assert TargetOk(w, w.threads[a]); }
    ThreadsFrame(w, w', tid, x);
  }

  lemma PublishData(w: World, tid: Tid)
    requires Inv(w) && AtPrepare(w, tid)
    ensures Publish(w.q, w.table[w.threads[tid].sub].sequence, w.threads[tid].sub).1 != Duplicate
    ensures Publish(w.q, w.table[w.threads[tid].sub].sequence, w.threads[tid].sub).1.Published?
      ==> DataInv(DoPublish(w, tid, w.threads[tid].sub))
  {
    var w', x := DoPublish(w, tid, w.threads[tid].sub), w.threads[tid].sub;
    assert ThreadOk(w, w.threads[tid]) && SubmissionOk(w, x);
    hide ControlInv;
    var s := w.table[x].sequence;
    if Publish(w.q, s, x).1.Published? {
      PublishQueue(w.q, s, x);
      TableFrame(w, w', x);
      forall t | t in w.q.nodes ensures w.q.nodes[t].sub != x { assert NodeOk(w, t); }
      NodesFrame(w, w', x, s);
    }
  }

  // Giving back a sequence that is outside the queue disturbs no other submission.
  lemma AbandonTable(w: World, w': World, x: Sub, s: nat)
    requires DataInv(w) && x in w.table && FreeSequence(w, s)
    requires forall y :: y in w.table && y != x && w.table[y].stage.Held? ==> w.table[y].sequence != s
    requires w.table[x].stage.Held? || w.table[x].stage.Released?
    requires w'.q == Abandon(w.q, s) && w'.done == w.done && w'.subs == w.subs
    requires RecordsKept(w, w', x) && x in w'.table && w'.table[x].rollbacks == 1
    requires w'.table[x].stage.Released? || w'.table[x].stage == Threw(false)
    ensures TableInv(w')
  {
    hide QueueInv, NodesInv, DoneInv;
    forall sub | sub in w.table && sub != x && HasSequence(w.table[sub])
      ensures SameStanding(w, w', w.table[sub].sequence) || SubmissionOk(w', sub)
    {
      assert SubmissionOk(w, sub);
    }
    TableFrame(w, w', x);
  }

  lemma AbandonNodes(w: World, w': World, x: Sub, s: nat)
    requires DataInv(w) && x in w.table && FreeSequence(w, s)
    requires forall y :: y in w.table && y != x && w.table[y].stage.Held? ==> w.table[y].sequence != s
    requires w.table[x].stage.Held? || w.table[x].stage.Released?
    requires w'.q == Abandon(w.q, s) && w'.done == w.done && w'.subs == w.subs
    requires RecordsKept(w, w', x) && x in w'.table && w'.table[x].rollbacks == 1
    requires w'.table[x].stage.Released? || w'.table[x].stage == Threw(false)
    ensures NodesInv(w')
  {
    hide QueueInv, TableInv, DoneInv;
    forall t | t in w.q.nodes ensures w.q.nodes[t].sub != x { assert NodeOk(w, t); }
    NodesFrame(w, w', x, 0);
  }

  lemma AbandonData(w: World, w': World, x: Sub, s: nat)
    requires DataInv(w) && x in w.table && FreeSequence(w, s)
    requires forall y :: y in w.table && y != x && w.table[y].stage.Held? ==> w.table[y].sequence != s
    requires w.table[x].stage.Held? || w.table[x].stage.Released?
    requires w'.q == Abandon(w.q, s) && w'.done == w.done && w'.subs == w.subs
    requires RecordsKept(w, w', x) && x in w'.table && w'.table[x].rollbacks == 1
    requires w'.table[x].stage.Released? || w'.table[x].stage == Threw(false)
    ensures DataInv(w')
  {
    AbandonQueue(w.q, s);
    AbandonTable(w, w', x, s);
    AbandonNodes(w, w', x, s);
    hide QueueInv, TableInv, NodesInv;
  }

  lemma AbandonUnpublishedPreserves(w: World, tid: Tid)
    requires Inv(w) && AtUnwind(w, tid)
    ensures Inv(DoAbandonUnpublished(w, tid, w.threads[tid].sub))
  {
    var w', x := DoAbandonUnpublished(w, tid, w.threads[tid].sub), w.threads[tid].sub;
    assert ThreadOk(w, w.threads[tid]);
    PumpFrame(w, w');
    forall a | a in w.threads && a != tid ensures TargetOk(w', w.threads[a]) { assert TargetOk(w, w.threads[a]); }
    ThreadsFrame(w, w', tid, x);
    assert SubmissionOk(w, x);
    AbandonData(w, w', x, w.table[x].sequence);
  }

  lemma AbandonFailedPreserves(w: World, tid: Tid)
    requires Inv(w) && In(w, tid, (p: Phase) => p.RolledBack?) && w.threads[tid].call.Submitter?
    ensures Inv(DoAbandonFailed(w, tid, w.threads[tid].call))
  {
    var call := w.threads[tid].call;
    var w', x := DoAbandonFailed(w, tid, call), call.sub;
    assert ThreadOk(w, w.threads[tid]);
    PumpFrame(w, w');
    OthersDispatchNothing(w, w', tid);
    ThreadsFrame(w, w', tid, x);
    assert TargetOk(w, w.threads[tid]) && SubmissionOk(w, x);
    AbandonData(w, w', x, call.sequence);
  }

  // Leaving a call touches the caller's thread and its record only.
  lemma LeaveEffect(w: World, tid: Tid, call: Call)
    ensures Leave(w, tid, call) == w.(threads := w.threads - {tid}, table := Leave(w, tid, call).table)
  {
  }

  // A call returns: its submission's record changes stage only.
  lemma LeaveThreads(w: World, w': World, tid: Tid)
    requires ThreadsInv(w) && tid in w.threads && w.threads[tid].Pumping? && !w.threads[tid].phase.RolledBack?
    requires w'.threads == w.threads - {tid} && w'.table == Leave(w, tid, w.threads[tid].call).table
    requires forall a :: a in w.threads && a != tid ==> TargetOk(w', w.threads[a])
    ensures ThreadsInv(w')
  {
    var call := w.threads[tid].call;
    assert ThreadOk(w, w.threads[tid]);
    ThreadsFrame(w, w', tid, if call.Submitter? then call.sub else w.subs) by { hide TargetOk; }
  }

  // The same sequences are in the queue, for the same submissions, with the same rollbacks.
  ghost predicate SameNodes(q: Queue, q': Queue) {
    && q'.next == q.next && q'.skipped == q.skipped && q'.nodes.Keys == q.nodes.Keys
    && forall s :: s in q.nodes ==> q'.nodes[s].sub == q.nodes[s].sub && q'.nodes[s].rollback == q.nodes[s].rollback
  }

  predicate InQueue(r: Submission) {
    r.stage.Accepted? || r.stage.Returned?
  }

  // Record x is dropped from no map and at most its stage changes, without entering or leaving the queue.
  ghost predicate OnlyStage(w: World, w': World, x: Sub) {
    && RecordsKept(w, w', x)
    && (x in w.table <==> x in w'.table)
    && (x in w.table ==>
          && w'.table[x] == w.table[x].(stage := w'.table[x].stage)
          && (InQueue(w.table[x]) <==> InQueue(w'.table[x]))
          && !w'.table[x].stage.Held?)
  }

  lemma KeptTable(w: World, w': World, x: Sub)
    requires TableInv(w) && w'.subs == w.subs && w'.done == w.done && SameNodes(w.q, w'.q) && OnlyStage(w, w', x)
    requires x in w.table ==> SubmissionOk(w', x)
    ensures TableInv(w')
  {
    TableFrame(w, w', x) by { hide SubmissionOk; }
  }

  lemma KeptNodes(w: World, w': World, x: Sub)
    requires NodesInv(w) && DoneInv(w) && w'.done == w.done && SameNodes(w.q, w'.q) && OnlyStage(w, w', x)
    ensures NodesInv(w') && DoneInv(w')
  {
    forall s | s in w'.q.nodes ensures NodeOk(w', s) { assert NodeOk(w, s); }
  }

  lemma KeptData(w: World, w': World, x: Sub)
    requires DataInv(w) && w'.subs == w.subs && w'.done == w.done && SameNodes(w.q, w'.q) && OnlyStage(w, w', x)
    requires x in w.table ==> SubmissionOk(w', x)
    requires QueueInv(w'.q)
    ensures DataInv(w')
  {
    hide *;
    KeptTable(w, w', x) by { DataParts(w); }
    KeptNodes(w, w', x) by { DataParts(w); }
    DataWhole(w');
  }

  lemma DataParts(w: World)
    requires DataInv(w)
    ensures QueueInv(w.q) && TableInv(w) && NodesInv(w) && DoneInv(w)
  {
    hide QueueInv, TableInv, NodesInv, DoneInv;
  }

  lemma InvParts(w: World)
    requires Inv(w)
    ensures ControlInv(w) && DataInv(w)
  {
  }

  lemma DataWhole(w: World)
    requires QueueInv(w.q) && TableInv(w) && NodesInv(w) && DoneInv(w)
    ensures DataInv(w)
  {
    hide QueueInv, TableInv, NodesInv, DoneInv;
  }

  // The data do not depend on the threads, the flags, the retained failures or the history.
  lemma UntouchedData(w: World, w': World)
    requires DataInv(w) && w'.table == w.table && w'.subs == w.subs && w'.done == w.done
    requires SameNodes(w.q, w'.q) && QueueInv(w'.q)
    ensures DataInv(w')
  {
    hide QueueInv, NodesInv, DoneInv, SubmissionOk, SameNodes;
    assert w.subs !in w.table;
    KeptData(w, w', w.subs);
  }

  lemma LeaveData(w: World, w': World, tid: Tid)
    requires Inv(w) && tid in w.threads && w.threads[tid].Pumping? && !w.threads[tid].phase.RolledBack?
    requires w'.table == Leave(w, tid, w.threads[tid].call).table && w'.subs == w.subs && w'.done == w.done
    requires QueueInv(w'.q) && SameNodes(w.q, w'.q)
    ensures DataInv(w')
  {
    var call := w.threads[tid].call;
    assert ThreadOk(w, w.threads[tid]);
    hide PumpInv, ThreadsInv, QueueInv, NodesInv, DoneInv;
    if call.Submitter? {
      assert SubmissionOk(w, call.sub);
      KeptData(w, w', call.sub);
    } else {
      UntouchedData(w, w');
    }
  }

  lemma EnterControl(w: World, tid: Tid)
    requires ControlInv(w) && In(w, tid, (p: Phase) => p.Entering?)
    ensures ControlInv(DoEnter(w, tid, w.threads[tid].call))
  {
    var w' := DoEnter(w, tid, w.threads[tid].call);
    assert ThreadOk(w, w.threads[tid]);
    forall a | a in w.threads ensures TargetOk(w', w.threads[a]) { assert TargetOk(w, w.threads[a]); }
    if EnterPump(w.q).1 {
      PumpEntered(w, w', tid);
      ThreadsFrame(w, w', tid, w.subs) by { hide PumpInv; }
    } else {
      PumpFrame(w, w');
      LeaveThreads(w, w', tid);
    }
  }

  lemma EnterData(w: World, tid: Tid)
    requires Inv(w) && In(w, tid, (p: Phase) => p.Entering?)
    ensures DataInv(DoEnter(w, tid, w.threads[tid].call))
  {
    hide PumpInv, ThreadsInv, TableInv, NodesInv, DoneInv, ControlInv;
    var w' := DoEnter(w, tid, w.threads[tid].call);
    assert QueueInv(w'.q) && SameNodes(w.q, w'.q);
    if EnterPump(w.q).1 {
      hide QueueInv, SameNodes;
      UntouchedData(w, w');
    } else {
      hide QueueInv, SameNodes, SetStage;
      LeaveData(w, w', tid);
    }
  }

  // The pumping thread leaves: nobody pumps.
  lemma StopPumping(w: World, w': World, tid: Tid)
    requires Inv(w) && tid in w.threads && InPump(w.threads[tid]) && !w.threads[tid].phase.RolledBack?
    requires w'.threads == w.threads - {tid} && w'.table == Leave(w, tid, w.threads[tid].call).table
    requires w'.subs == w.subs && w'.done == w.done && !w'.q.pumping
    requires QueueInv(w'.q) && SameNodes(w.q, w'.q)
    ensures Inv(w')
  {
    LeaveData(w, w', tid);
    hide DataInv, QueueInv, SameNodes;
    PumpLeft(w, w', tid);
    OthersDispatchNothing(w, w', tid);
    LeaveThreads(w, w', tid);
  }

  // The pumping thread moves on inside the pump; the queue changes, its submissions do not.
  lemma KeepPumping(w: World, w': World, tid: Tid)
    requires ControlInv(w) && tid in w.threads && InPump(w.threads[tid])
    requires w'.q.pumping == w.q.pumping && w'.table == w.table
    requires tid in w'.threads && InPump(w'.threads[tid]) && w'.threads == w.threads[tid := w'.threads[tid]]
    requires w'.threads[tid].call == w.threads[tid].call
    requires !w.threads[tid].phase.RolledBack? && !w'.threads[tid].phase.RolledBack?
    requires TargetOk(w', w'.threads[tid])
    ensures ControlInv(w')
  {
    assert ThreadOk(w, w.threads[tid]);
    PumpFrame(w, w');
    OthersDispatchNothing(w, w', tid);
    ThreadsFrame(w, w', tid, w.subs) by { hide PumpInv, TargetOk; }
  }

  lemma PickNonePreserves(w: World, tid: Tid)
    requires Inv(w) && In(w, tid, (p: Phase) => p.Scanning?) && Pick(w.q).1.None?
    ensures Inv(DoPick(w, tid, w.threads[tid].call))
  {
    var w' := DoPick(w, tid, w.threads[tid].call);
    PickQueue(w.q);
    hide Pick, QueueInv, Inv, SetStage;
    assert QueueInv(w.q) by { DataParts(w) by { InvParts(w); } }
    StopPumping(w, w', tid);
  }

  lemma PickSomeKeeps(w: World, tid: Tid)
    requires Inv(w) && In(w, tid, (p: Phase) => p.Scanning?) && Pick(w.q).1.Some?
    ensures var w' := DoPick(w, tid, w.threads[tid].call);
      QueueInv(w'.q) && SameNodes(w.q, w'.q) && TargetOk(w', w'.threads[tid]) && w'.q.pumping == w.q.pumping
  {
    PickQueue(w.q);
    assert NodeFlags(w.q.nodes[Pick(w.q).1.value]);
    hide Pick, QueueInv, TableInv, NodesInv, DoneInv, ControlInv;
  }

  lemma PickSomePreserves(w: World, tid: Tid)
    requires Inv(w) && In(w, tid, (p: Phase) => p.Scanning?) && Pick(w.q).1.Some?
    ensures Inv(DoPick(w, tid, w.threads[tid].call))
  {
    var w' := DoPick(w, tid, w.threads[tid].call);
    PickSomeKeeps(w, tid);
    hide Pick, QueueInv, ControlInv, DataInv, TargetOk, SameNodes;
    KeepPumping(w, w', tid);
    UntouchedData(w, w');
  }

  lemma ReturnPreserves(w: World, tid: Tid)
    requires Inv(w) && AtDispatch(w, tid)
    ensures Inv(Next(w, DispatchReturns(tid)))
  {
    var w' := Next(w, DispatchReturns(tid));
    hide PumpInv, ThreadsInv, QueueInv, TableInv, NodesInv, DoneInv;
    KeepPumping(w, w', tid);
    UntouchedData(w, w');
  }

  lemma UnavailableKeeps(w: World, tid: Tid)
    requires Inv(w) && AtDispatch(w, tid)
    ensures var q' := Park(w.q, w.threads[tid].phase.target); QueueInv(q') && SameNodes(w.q, q') && !q'.pumping
  {
    assert TargetOk(w, w.threads[tid]);
    hide ControlInv, TableInv, NodesInv, DoneInv;
    ParkQueue(w.q, w.threads[tid].phase.target);
  }

  lemma UnavailableEffect(w: World, tid: Tid, call: Call, t: nat)
    ensures var w' := DoUnavailable(w, tid, call, t);
      && w'.q == Park(w.q, t) && w'.table == Leave(w, tid, call).table && w'.threads == w.threads - {tid}
      && w'.subs == w.subs && w'.done == w.done
  {
    hide Park;
  }

  lemma UnavailablePreserves(w: World, tid: Tid)
    requires Inv(w) && AtDispatch(w, tid)
    ensures Inv(DoUnavailable(w, tid, w.threads[tid].call, w.threads[tid].phase.target))
  {
    var call, t := w.threads[tid].call, w.threads[tid].phase.target;
    var w' := DoUnavailable(w, tid, call, t);
    hide Inv, QueueInv, SameNodes, SetStage, Park, Leave, DoUnavailable;
    UnavailableKeeps(w, tid);
    UnavailableEffect(w, tid, call, t);
    StopPumping(w, w', tid);
  }

  // ---------------------------------------------------------------- a dispatch throws

  // What a pump finds when it takes a throw for its own: the node is its own submission's, or that
  // one lost its node before.
  lemma ThrownNode(w: World, tid: Tid, t: nat)
    requires Inv(w) && AtDispatch(w, tid) && t == w.threads[tid].phase.target
    requires Preaccepts(w.threads[tid].call, t) && t in w.q.nodes
    ensures w.q.nodes[t].rollback && w.q.nodes[t].sub in w.table && w.table[w.q.nodes[t].sub].rollbacks == 0
    ensures InQueue(w.table[w.q.nodes[t].sub])
    ensures var x := w.threads[tid].call.sub;
      && x in w.table && w.table[x].sequence == t
      && (w.q.nodes[t].sub == x || w.table[x].rollbacks == 1)
      && w.table[x].stage == (if w.threads[tid].call.failed then Released else Accepted)
    ensures Unheld(w.(q := FailDispatch(w.q, t, true)), t)
  {
    hide PumpInv;
    assert ThreadOk(w, w.threads[tid]) && TargetOk(w, w.threads[tid]) && NodeOk(w, t);
    assert SubmissionOk(w, w.threads[tid].call.sub);
    forall y | y in w.table && w.table[y].stage.Held? ensures w.table[y].sequence != t { assert SubmissionOk(w, y); }
  }

  lemma FailedQueue(q: Queue, t: nat, pre: bool)
    requires QueueInv(q)
    requires t in q.nodes ==> q.nodes[t].executing
    ensures QueueInv(FailDispatch(q, t, pre))
  {
    if t in q.nodes && pre { EraseQueue(q, t, FailDispatch(q, t, pre)) by { hide QueueInv, RemoveFirst; } }
  }

  lemma TargetExecutes(w: World, pc: Pc)
    requires QueueInv(w.q) && TargetOk(w, pc) && pc.Pumping? && pc.phase.Dispatching? && pc.phase.target in w.q.nodes
    ensures w.q.nodes[pc.phase.target].executing
  {
  }

  // A dispatch that the submitter takes for its own throws before the sequence completed.
  lemma RejectControl(w: World, tid: Tid, failure: Failure)
    requires Inv(w) && AtDispatch(w, tid) && Preaccepts(w.threads[tid].call, w.threads[tid].phase.target)
    requires w.threads[tid].phase.target in w.q.nodes
    ensures ControlInv(DoThrow(w, tid, w.threads[tid].call, w.threads[tid].phase.target, failure))
  {
    var t, call := w.threads[tid].phase.target, w.threads[tid].call;
    var w' := DoThrow(w, tid, call, t, failure);
    RejectedThread(w, tid, failure);
    RejectPump(w, tid, failure);
    ThrownNode(w, tid, t);
    RejectTable(w, tid, failure);
    OthersDispatchNothing(w, w', tid);
    hide PumpInv, DataInv, ThreadOk, TargetOk, DoThrow, Preaccepts, InQueue, OthersKept;
    RejectThreads(w, w', tid, w.q.nodes[t].sub);
  }

  // The records and threads after such a throw.
  lemma RejectTable(w: World, tid: Tid, failure: Failure)
    requires AtDispatch(w, tid) && Preaccepts(w.threads[tid].call, w.threads[tid].phase.target) && w.threads[tid].phase.target in w.q.nodes
    requires var n := w.q.nodes[w.threads[tid].phase.target]; n.rollback && n.sub in w.table && w.table[n.sub].rollbacks == 0
    ensures var w', y := DoThrow(w, tid, w.threads[tid].call, w.threads[tid].phase.target, failure), w.q.nodes[w.threads[tid].phase.target].sub;
      && OthersKept(w, w', tid) && tid in w'.threads && SubOf(w'.threads[tid]) == SubOf(w.threads[tid]) && SubOf(w.threads[tid]).Some?
      && (forall x :: x in w.table ==> x in w'.table)
      && forall x :: x in w.table && SubOf(w.threads[tid]) != Some(x) ==>
           w'.table[x] == if x == y then w.table[x].(rollbacks := 1) else w.table[x]
  {
    hide FailDispatch;
  }

  lemma RejectPump(w: World, tid: Tid, failure: Failure)
    requires PumpInv(w) && AtDispatch(w, tid)
    ensures PumpInv(DoThrow(w, tid, w.threads[tid].call, w.threads[tid].phase.target, failure))
  {
    hide RemoveFirst;
    PumpFrame(w, DoThrow(w, tid, w.threads[tid].call, w.threads[tid].phase.target, failure));
  }

  lemma RejectedThread(w: World, tid: Tid, failure: Failure)
    requires Inv(w) && AtDispatch(w, tid) && Preaccepts(w.threads[tid].call, w.threads[tid].phase.target)
    requires w.threads[tid].phase.target in w.q.nodes
    ensures var w' := DoThrow(w, tid, w.threads[tid].call, w.threads[tid].phase.target, failure);
      tid in w'.threads && ThreadOk(w', w'.threads[tid]) && TargetOk(w', w'.threads[tid])
    ensures var y := w.q.nodes[w.threads[tid].phase.target].sub; y in w.table && InQueue(w.table[y]) && w.table[y].rollbacks == 0
  {
    ThrownNode(w, tid, w.threads[tid].phase.target);
    hide Inv, RemoveFirst;
  }

  // The victim's record counts a rollback and the thread's own record becomes held, if it had not failed yet.
  lemma RejectThreads(w: World, w': World, tid: Tid, y: Sub)
    requires ThreadsInv(w) && OthersKept(w, w', tid) && tid in w.threads && tid in w'.threads
    requires y in w.table && InQueue(w.table[y]) && SubOf(w'.threads[tid]) == SubOf(w.threads[tid]) && SubOf(w.threads[tid]).Some?
    requires forall x :: x in w.table ==> x in w'.table
    requires forall x :: x in w.table && SubOf(w.threads[tid]) != Some(x) ==>
               w'.table[x] == if x == y then w.table[x].(rollbacks := 1) else w.table[x]
    requires ThreadOk(w', w'.threads[tid]) && TargetOk(w', w'.threads[tid])
    requires forall a :: a in w.threads && a != tid ==> TargetOk(w', w.threads[a])
    ensures ThreadsInv(w')
  {
    hide TargetOk;
    forall a | a in w'.threads && a != tid ensures ThreadOk(w', w'.threads[a]) { assert ThreadOk(w, w.threads[a]); }
  }

  lemma RejectData(w: World, tid: Tid, failure: Failure)
    requires Inv(w) && AtDispatch(w, tid) && Preaccepts(w.threads[tid].call, w.threads[tid].phase.target)
    requires w.threads[tid].phase.target in w.q.nodes
    ensures DataInv(DoThrow(w, tid, w.threads[tid].call, w.threads[tid].phase.target, failure))
  {
    var t, call := w.threads[tid].phase.target, w.threads[tid].call;
    var w' := DoThrow(w, tid, call, t, failure);
    var w1 := TakeRollback(w, t).(q := FailDispatch(w.q, t, true));
    ThrownNode(w, tid, t);
    TargetExecutes(w, w.threads[tid]);
    FailedQueue(w.q, t, true);
    hide ControlInv, QueueInv, RemoveFirst, TableInv, NodesInv, DoneInv;
    ErasedData(w, w1, t);
    if call.failed {
      SameData(w1, w');
    } else {
      HeldAgainData(w1, w', call.sub);
    }
  }

  // Node t leaves the queue and the rollback of its submission runs.
  lemma ErasedData(w: World, w': World, t: nat)
    requires DataInv(w) && t in w.q.nodes && w.q.nodes[t].sub in w.table && InQueue(w.table[w.q.nodes[t].sub])
    requires w.table[w.q.nodes[t].sub].rollbacks == 0 && w'.done == w.done && w'.subs == w.subs
    requires var y := w.q.nodes[t].sub; w'.table == w.table[y := w.table[y].(rollbacks := 1)]
    requires QueueInv(w'.q) && w'.q.next == w.q.next && w'.q.skipped == w.q.skipped && w'.q.nodes == w.q.nodes - {t}
    ensures DataInv(w')
  {
    var y := w.q.nodes[t].sub;
    hide QueueInv;
    assert NodeOk(w, t);
    forall sub | sub in w.table && sub != y && HasSequence(w.table[sub])
      ensures SameStanding(w, w', w.table[sub].sequence) || SubmissionOk(w', sub)
    {
      assert SubmissionOk(w, sub);
    }
    TableFrame(w, w', y);
    forall s | s in w'.q.nodes ensures w.q.nodes[s].sub != y { assert NodeOk(w, s); }
    NodesFrame(w, w', y, t);
  }

  // A rejected submission, whose rollback ran, holds its sequence again.
  lemma HeldAgainData(w: World, w': World, x: Sub)
    requires DataInv(w) && x in w.table && w.table[x].rollbacks == 1 && Unheld(w, w.table[x].sequence)
    requires w'.q == w.q && w'.done == w.done && w'.subs == w.subs && w'.table == w.table[x := w.table[x].(stage := Held)]
    ensures DataInv(w')
  {
    hide QueueInv;
    TableFrame(w, w', x);
    forall s | s in w.q.nodes ensures w.q.nodes[s].sub != x {
      assert NodeOk(w, s);
    }
    NodesFrame(w, w', x, 0);
  }

  lemma SameData(w: World, w': World)
    requires DataInv(w) && w'.q == w.q && w'.done == w.done && w'.subs == w.subs && w'.table == w.table
    ensures DataInv(w')
  {
    hide QueueInv;
  }

  // A throw of a submission that completed itself leaves the queue alone.
  lemma SelfCompletedPreserves(w: World, tid: Tid, failure: Failure)
    requires Inv(w) && AtDispatch(w, tid) && Preaccepts(w.threads[tid].call, w.threads[tid].phase.target)
    requires w.threads[tid].phase.target !in w.q.nodes
    ensures Inv(DoThrow(w, tid, w.threads[tid].call, w.threads[tid].phase.target, failure))
  {
    var t, call := w.threads[tid].phase.target, w.threads[tid].call;
    var w' := DoThrow(w, tid, call, t, failure);
    assert ThreadOk(w, w.threads[tid]);
    hide QueueInv, NodesInv, DoneInv;
    PumpFrame(w, w');
    OthersDispatchNothing(w, w', tid);
    ThreadsFrame(w, w', tid, call.sub) by { hide PumpInv, TargetOk, DataInv; }
    hide PumpInv, ThreadsInv, TargetOk;
    SelfCompletedData(w, w', call.sub);
  }

  lemma SelfCompletedData(w: World, w': World, x: Sub)
    requires DataInv(w) && x in w.table && w'.done == w.done && w'.subs == w.subs && w'.q == w.q
    requires w.table[x].stage.Accepted? || w.table[x].stage.Released? || w.table[x].stage.SelfCompleted?
    requires w'.table == w.table || w'.table == w.table[x := w.table[x].(stage := SelfCompleted)]
    requires w.table[x].sequence !in w.q.nodes && w.table[x].sequence in w.done
    ensures DataInv(w')
  {
    hide QueueInv;
    assert SubmissionOk(w, x);
    TableFrame(w, w', x);
    forall t | t in w.q.nodes ensures w.q.nodes[t].sub != x { assert NodeOk(w, t); }
    NodesFrame(w, w', x, w.table[x].sequence);
  }

  // Somebody else's dispatch throws: its rollback is taken, its failed completion follows.
  lemma FailOtherThreads(w: World, w': World, tid: Tid, x: Sub)
    requires ThreadsInv(w) && tid in w.threads && w.threads[tid].Pumping? && w.threads[tid].phase.Dispatching?
    requires tid in w'.threads && w'.threads[tid].Pumping? && w'.threads[tid].phase.Completing?
    requires w'.threads == w.threads[tid := Pumping(w.threads[tid].call, w'.threads[tid].phase)]
    requires w'.table == w.table || (x in w.table && InQueue(w.table[x]) && w'.table == w.table[x := w.table[x].(rollbacks := 1)])
    requires forall a :: a in w.threads && a != tid ==> TargetOk(w', w.threads[a])
    ensures ThreadsInv(w')
  {
    forall a | a in w.threads ensures ThreadOk(w', w.threads[a]) { assert ThreadOk(w, w.threads[a]); }
    ThreadsFrame(w, w', tid, x) by { hide ThreadsInv; }
  }

  lemma FailOtherControl(w: World, tid: Tid, failure: Failure)
    requires Inv(w) && AtDispatch(w, tid) && !Preaccepts(w.threads[tid].call, w.threads[tid].phase.target)
    ensures ControlInv(DoThrow(w, tid, w.threads[tid].call, w.threads[tid].phase.target, failure))
  {
    var t, call := w.threads[tid].phase.target, w.threads[tid].call;
    var w' := DoThrow(w, tid, call, t, failure);
    assert ThreadOk(w, w.threads[tid]);
    if t in w.q.nodes { assert NodeOk(w, t); }
    hide DataInv, QueueInv, TableInv, NodesInv;
    assert PumpInv(w') by { PumpFrame(w, w') by { hide ThreadsInv, ThreadOk, TargetOk; } }
    OthersDispatchNothing(w, w', tid);
    hide PumpInv, TargetOk, InPump;
    FailOtherThreads(w, w', tid, if t in w.q.nodes then w.q.nodes[t].sub else w.subs);
  }

  lemma FailOtherData(w: World, tid: Tid, failure: Failure)
    requires Inv(w) && AtDispatch(w, tid) && !Preaccepts(w.threads[tid].call, w.threads[tid].phase.target)
    ensures DataInv(DoThrow(w, tid, w.threads[tid].call, w.threads[tid].phase.target, failure))
  {
    var t, call := w.threads[tid].phase.target, w.threads[tid].call;
    var w' := DoThrow(w, tid, call, t, failure);
    assert TargetOk(w, w.threads[tid]);
    if t in w.q.nodes {
      TargetExecutes(w, w.threads[tid]);
      FailedQueue(w.q, t, false);
      TakenData(w, w', t) by { hide ControlInv, QueueInv; assert NodeOk(w, t); }
    } else {
      UntouchedData(w, w') by { hide ControlInv; }
    }
  }

  lemma TakenData(w: World, w': World, t: nat)
    requires DataInv(w) && t in w.q.nodes && w'.done == w.done && w'.subs == w.subs
    requires w.q.nodes[t].sub in w.table && w.q.nodes[t].rollback
    requires w'.q == w.q.(nodes := w.q.nodes[t := w.q.nodes[t].(rollback := false)]) && QueueInv(w'.q)
    requires var x := w.q.nodes[t].sub; w'.table == w.table[x := w.table[x].(rollbacks := w.table[x].rollbacks + 1)]
    ensures DataInv(w')
  {
    var x := w.q.nodes[t].sub;
    hide QueueInv;
    assert NodeOk(w, t) && SubmissionOk(w, x);
    TableFrame(w, w', x);
    forall s | s in w.q.nodes && s != t ensures w.q.nodes[s].sub != x { assert NodeOk(w, s); }
    NodesFrame(w, w', x, t);
  }
}

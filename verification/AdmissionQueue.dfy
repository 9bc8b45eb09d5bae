// The DeviceOps admission state and its lock regions. Each region is a function on the queue value;
// the class carries the source's fields and loops and is proved against those functions.

module AdmissionQueue {
  import opened SizeT

  type Failure = nat

  // 55-bit submission sequences
  const MAX_SEQUENCE: nat := 0x7F_FFFF_FFFF_FFFF

  // An accepted submission; `sub` identifies whose closures it holds, the flags say whether they were moved out.
  datatype Node = Node(executing: bool, sub: nat, dispatch: bool, rollback: bool)

  datatype Queue = Queue(
    next: nat, completed: nat, skipped: set<nat>,
    failures: map<nat, Failure>, pending: map<nat, Failure>,
    nodes: map<nat, Node>, fifo: seq<nat>,
    credits: nat, capacity: nat, pumping: bool, closing: bool)

  // ---------------------------------------------------------------- regions of submit_prepared

  datatype ReserveOutcome = ReserveClosed | Exhausted | Reserved(sequence: nat)

  function Reserve(q: Queue): (Queue, ReserveOutcome) {
    if q.closing then (q, ReserveClosed)
    else if q.next > MAX_SEQUENCE then (q, Exhausted)
    else (q.(next := q.next + 1), Reserved(q.next))
  }

  datatype PublishOutcome = PublishClosed | Duplicate | Published

  function Publish(q: Queue, s: nat, sub: nat): (Queue, PublishOutcome) {
    if q.closing then (q, PublishClosed)
    else if s in q.nodes then (q, Duplicate)
    else (q.(nodes := q.nodes[s := Node(false, sub, true, true)], fifo := q.fifo + [s]), Published)
  }

  // abandon_sequence: rewind the counter when nothing was reserved since, otherwise remember a hole.
  function Abandon(q: Queue, s: nat): Queue {
    var q1 := q.(pending := q.pending - {s});
    if q1.next == s + 1 && q1.completed < s then q1.(next := q1.next - 1)
    else q1.(skipped := q1.skipped + {s})
  }

  // ---------------------------------------------------------------- regions of pump_admission

  function EnterPump(q: Queue): (Queue, bool) {
    if q.pumping || q.closing then (q, false) else (q.(pumping := true), true)
  }

  // The scan for the first node that is not executing; entries without a node are dropped.
  function Scan(fifo: seq<nat>, nodes: map<nat, Node>, i: nat): (r: (seq<nat>, nat))
    requires i <= |fifo|
    ensures r.1 <= |r.0|
    ensures r.1 < |r.0| ==> r.0[r.1] in nodes && !nodes[r.0[r.1]].executing
    decreases |fifo| - i
  {
    if i == |fifo| then (fifo, i)
    else if fifo[i] !in nodes then Scan(fifo[..i] + fifo[i + 1..], nodes, i)
    else if !nodes[fifo[i]].executing then (fifo, i)
    else Scan(fifo, nodes, i + 1)
  }

  function Pick(q: Queue): (Queue, Option<nat>) {
    if q.closing || q.credits >= q.capacity || q.fifo == [] then (q.(pumping := false), None)
    else
      var (fifo, i) := Scan(q.fifo, q.nodes, 0);
      if i == |fifo| then (q.(fifo := fifo, pumping := false), None)
      else
        var s := fifo[i];
        (q.(fifo := fifo, nodes := q.nodes[s := q.nodes[s].(executing := true, dispatch := false)], credits := q.credits + 1), Some(s))
  }

  function Decrement(n: nat): nat {
    if n != 0 then n - 1 else 0
  }

  // A dispatch that found a fixed resource unavailable: park the node again and stop pumping.
  function Park(q: Queue, s: nat): Queue {
    if s !in q.nodes then q.(pumping := false)
    else q.(nodes := q.nodes[s := q.nodes[s].(dispatch := true, executing := false)], credits := Decrement(q.credits), pumping := false)
  }

  function RemoveFirst(fifo: seq<nat>, s: nat): seq<nat> {
    if fifo == [] then [] else if fifo[0] == s then fifo[1..] else [fifo[0]] + RemoveFirst(fifo[1..], s)
  }

  lemma {:induction false} RemoveFirstAt(fifo: seq<nat>, s: nat, i: nat)
    requires i <= |fifo| && forall k :: 0 <= k < i ==> fifo[k] != s
    ensures i == |fifo| ==> RemoveFirst(fifo, s) == fifo
    ensures i < |fifo| && fifo[i] == s ==> RemoveFirst(fifo, s) == fifo[..i] + fifo[i + 1..]
  {
    if i == 0 {
      if fifo != [] { assert fifo[..0] + fifo[1..] == fifo[1..]; }
    } else {
      RemoveFirstAt(fifo[1..], s, i - 1);
      assert fifo == [fifo[0]] + fifo[1..];
      if i < |fifo| { assert fifo[..i] + fifo[i + 1..] == [fifo[0]] + (fifo[1..][..i - 1] + fifo[1..][i..]); }
    }
  }

  // A dispatch that threw. Pre-acceptance erases the node; otherwise only its rollback is taken.
  function FailDispatch(q: Queue, s: nat, preacceptance: bool): Queue {
    if s !in q.nodes then q
    else if preacceptance then
      q.(nodes := q.nodes - {s}, fifo := RemoveFirst(q.fifo, s),
         credits := if q.nodes[s].executing then Decrement(q.credits) else q.credits)
    else q.(nodes := q.nodes[s := q.nodes[s].(rollback := false)])
  }

  // ---------------------------------------------------------------- completion and waiting

  datatype CompleteOutcome = InvalidSequence | Unknown | AlreadyFailed | Completed(shouldPump: bool)

  function Complete(q: Queue, s: nat, failure: Option<Failure>): (Queue, CompleteOutcome) {
    if s == 0 || s >= q.next then (q, InvalidSequence)
    else if s !in q.nodes then (q, if s in q.failures then AlreadyFailed else Unknown)
    else
      var f := if failure.None? && s in q.pending then Some(q.pending[s]) else failure;
      (q.(pending := q.pending - {s},
          failures := if f.Some? && s !in q.failures then q.failures[s := f.value] else q.failures,
          credits := if q.nodes[s].executing then Decrement(q.credits) else q.credits,
          nodes := q.nodes - {s},
          fifo := RemoveFirst(q.fifo, s),
          completed := if q.completed < s then s else q.completed),
       Completed(!q.closing))
  }

  // commit_failure; false stands for its invalid_argument.
  function CommitFailure(q: Queue, s: nat, f: Failure): (Queue, bool) {
    if s == 0 || s >= q.next || s <= q.completed || s in q.skipped then (q, false)
    else (q.(pending := q.pending[s := f]), true)
  }

  function RecordPostCompletionFailure(q: Queue, s: nat, f: Failure): Queue {
    if s in q.failures then q else q.(failures := q.failures[s := f])
  }

  datatype WaitOutcome = NeverSubmitted | Blocked | Failed(failure: Failure) | Finished

  // One look of wait at the state: reject, keep waiting, rethrow, or return.
  function WaitLook(q: Queue, s: nat): WaitOutcome {
    if s == 0 || s >= q.next || s in q.skipped then NeverSubmitted
    else if s in q.failures then Failed(q.failures[s])
    else if q.completed >= s then Finished
    else Blocked
  }

  // ---------------------------------------------------------------- tokens

  const SEQUENCE_SPAN: nat := 0x80_0000_0000_0000

  // encode_token
  function EncodeToken(queueId: nat, s: nat): nat {
    queueId * SEQUENCE_SPAN + s
  }

  // The id and sequence that wait reads back from a token.
  function DecodeToken(token: nat): (nat, nat) {
    (token / SEQUENCE_SPAN, token % SEQUENCE_SPAN)
  }

  // Tokens are positive 63-bit values from which queue and sequence are read back.
  lemma TokenRoundTrip(queueId: nat, s: nat)
    requires 0 < queueId < 256 && 0 < s <= MAX_SEQUENCE
    ensures DecodeToken(EncodeToken(queueId, s)) == (queueId, s)
    ensures 0 < EncodeToken(queueId, s) <= 0x7FFF_FFFF_FFFF_FFFF
  {
  }

  // ---------------------------------------------------------------- the class

  class DeviceOps {
    var nextSequence: nat
    var completedSequence: nat
    var skippedSequences: set<nat>
    var failures: map<nat, Failure>
    var pendingFailures: map<nat, Failure>
    var admissionNodes: map<nat, Node>
    var admissionFifo: seq<nat>
    var admissionCredits: nat
    const admissionCapacity: nat
    var admissionPumping: bool
    var admissionClosing: bool

    function State(): Queue
      reads this
    {
      Queue(nextSequence, completedSequence, skippedSequences, failures, pendingFailures, admissionNodes, admissionFifo,
            admissionCredits, admissionCapacity, admissionPumping, admissionClosing)
    }

    constructor (maxInFlight: nat)
      ensures State() == Initial(maxInFlight)
    {
      nextSequence, completedSequence, skippedSequences := 1, 0, {};
      failures, pendingFailures, admissionNodes, admissionFifo := map[], map[], map[], [];
      admissionCapacity := if maxInFlight < 1 then 1 else maxInFlight;
      admissionCredits, admissionPumping, admissionClosing := 0, false, false;
    }

    method ReserveSequence() returns (r: ReserveOutcome)
      modifies this
      ensures (State(), r) == Reserve(old(State()))
    {
      if admissionClosing {
        return ReserveClosed;
      }
      if nextSequence > MAX_SEQUENCE {
        return Exhausted;
      }
      r := Reserved(nextSequence);
      nextSequence := nextSequence + 1;
    }

    method PublishNode(sequence: nat, sub: nat) returns (r: PublishOutcome)
      modifies this
      ensures (State(), r) == Publish(old(State()), sequence, sub)
    {
      if admissionClosing {
        return PublishClosed;
      }
      if sequence in admissionNodes {
        return Duplicate;
      }
      admissionNodes := admissionNodes[sequence := Node(false, sub, true, true)];
      admissionFifo := admissionFifo + [sequence];
      r := Published;
    }

    method AbandonSequence(sequence: nat)
      modifies this
      ensures State() == Abandon(old(State()), sequence)
    {
      pendingFailures := pendingFailures - {sequence};
      if nextSequence == sequence + 1 && completedSequence < sequence {
        nextSequence := nextSequence - 1;
        return;
      }
      skippedSequences := skippedSequences + {sequence};
    }

    method BeginPump() returns (entered: bool)
      modifies this
      ensures (State(), entered) == EnterPump(old(State()))
    {
      if admissionPumping || admissionClosing {
        return false;
      }
      admissionPumping := true;
      entered := true;
    }

    method PickNode() returns (r: Option<nat>)
      modifies this
      ensures (State(), r) == Pick(old(State()))
    {
      if admissionClosing || admissionCredits >= admissionCapacity || admissionFifo == [] {
        admissionPumping := false;
        return None;
      }
      var candidate := 0;
      while candidate != |admissionFifo|
        invariant 0 <= candidate <= |admissionFifo|
        invariant Scan(admissionFifo, admissionNodes, candidate) == Scan(old(admissionFifo), old(admissionNodes), 0)
        invariant State() == old(State()).(fifo := admissionFifo)
        decreases |admissionFifo| - candidate
      {
        if admissionFifo[candidate] !in admissionNodes {
          admissionFifo := admissionFifo[..candidate] + admissionFifo[candidate + 1..];
          continue;
        }
        if !admissionNodes[admissionFifo[candidate]].executing {
          break;
        }
        candidate := candidate + 1;
      }
      if candidate == |admissionFifo| {
        admissionPumping := false;
        return None;
      }
      var sequence := admissionFifo[candidate];
      admissionNodes := admissionNodes[sequence := admissionNodes[sequence].(executing := true, dispatch := false)];
      admissionCredits := admissionCredits + 1;
      r := Some(sequence);
    }

    method ParkNode(sequence: nat)
      modifies this
      ensures State() == Park(old(State()), sequence)
    {
      if sequence in admissionNodes {
        admissionNodes := admissionNodes[sequence := admissionNodes[sequence].(dispatch := true, executing := false)];
        if admissionCredits != 0 {
          admissionCredits := admissionCredits - 1;
        }
      }
      admissionPumping := false;
    }

    // std::find and erase on the admission order.
    method EraseFromFifo(sequence: nat)
      modifies this`admissionFifo
      ensures admissionFifo == RemoveFirst(old(admissionFifo), sequence)
    {
      var i := 0;
      while i < |admissionFifo| && admissionFifo[i] != sequence
        invariant 0 <= i <= |admissionFifo|
        invariant forall k :: 0 <= k < i ==> admissionFifo[k] != sequence
      {
        i := i + 1;
      }
      RemoveFirstAt(admissionFifo, sequence, i);
      if i < |admissionFifo| {
        admissionFifo := admissionFifo[..i] + admissionFifo[i + 1..];
      }
    }

    // The failure region of the pump; reports whether the node was found and its rollback taken.
    method TakeFailedNode(sequence: nat, preacceptance: bool) returns (found: bool, rollback: bool)
      modifies this
      ensures State() == FailDispatch(old(State()), sequence, preacceptance)
      ensures found <==> sequence in old(admissionNodes)
      ensures rollback <==> found && old(admissionNodes)[sequence].rollback
    {
      if sequence !in admissionNodes {
        return false, false;
      }
      var node := admissionNodes[sequence];
      rollback := node.rollback;
      found := true;
      if preacceptance {
        if node.executing && admissionCredits != 0 {
          admissionCredits := admissionCredits - 1;
        }
        admissionNodes := admissionNodes - {sequence};
        EraseFromFifo(sequence);
      } else {
        admissionNodes := admissionNodes[sequence := node.(rollback := false)];
      }
    }

    // A committed failure counts when none is given; the first retained failure of a sequence stays.
    method RetainFailure(sequence: nat, failure: Option<Failure>)
      modifies this`failures, this`pendingFailures
      ensures pendingFailures == old(pendingFailures) - {sequence}
      ensures var f := if failure.None? && sequence in old(pendingFailures) then Some(old(pendingFailures)[sequence]) else failure;
        failures == if f.Some? && sequence !in old(failures) then old(failures)[sequence := f.value] else old(failures)
    {
      var retained := failure;
      if sequence in pendingFailures {
        if retained.None? {
          retained := Some(pendingFailures[sequence]);
        }
        pendingFailures := pendingFailures - {sequence};
      }
      if retained.Some? && sequence !in failures {
        failures := failures[sequence := retained.value];
      }
    }

    // Give back the credit of a completing node and drop it, usually from the front of the order.
    method ReleaseNode(sequence: nat)
      requires sequence in admissionNodes
      modifies this`admissionCredits, this`admissionNodes, this`admissionFifo
      ensures admissionNodes == old(admissionNodes) - {sequence}
      ensures admissionFifo == RemoveFirst(old(admissionFifo), sequence)
      ensures admissionCredits == if old(admissionNodes)[sequence].executing then Decrement(old(admissionCredits)) else old(admissionCredits)
    {
      if admissionNodes[sequence].executing && admissionCredits != 0 {
        admissionCredits := admissionCredits - 1;
      }
      admissionNodes := admissionNodes - {sequence};
      if admissionFifo != [] && admissionFifo[0] == sequence {
        admissionFifo := admissionFifo[1..];
      } else {
        EraseFromFifo(sequence);
      }
    }

    method CompleteSequence(sequence: nat, failure: Option<Failure>) returns (r: CompleteOutcome)
      modifies this
      ensures (State(), r) == Complete(old(State()), sequence, failure)
    {
      if sequence == 0 || sequence >= nextSequence {
        return InvalidSequence;
      }
      if sequence !in admissionNodes {
        return if sequence in failures then AlreadyFailed else Unknown;
      }
      RetainFailure(sequence, failure);
      ReleaseNode(sequence);
      if completedSequence < sequence {
        completedSequence := sequence;
      }
      r := Completed(!admissionClosing);
    }

    method CommitPendingFailure(sequence: nat, failure: Failure) returns (ok: bool)
      modifies this
      ensures (State(), ok) == CommitFailure(old(State()), sequence, failure)
    {
      if sequence == 0 || sequence >= nextSequence || sequence <= completedSequence || sequence in skippedSequences {
        return false;
      }
      pendingFailures := pendingFailures[sequence := failure];
      ok := true;
    }
  }

  function Initial(maxInFlight: nat): Queue {
    Queue(1, 0, {}, map[], map[], map[], [], 0, if maxInFlight < 1 then 1 else maxInFlight, false, false)
  }
}

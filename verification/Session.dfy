// A generation session: request replacement, the ledger of accepted submissions, the poison flag, and
// the publication of key/value cache rows. Device work may be rejected, fail or succeed at every step.

module Session {
  import opened SizeT

  datatype StopReason = EndOfSequence | MaxNewTokens | ContextCapacity

  datatype Failure =
    | EmptyPrompt | PromptTooLong | TokenOutsideVocabulary
    | SessionPoisoned | SetupFailed | DrainFailed
    | NotAccepting | LengthMismatch | CapacityExceeded | PrefixMismatch | StageRejected | LedgerFull
    | InvalidProducer | DeviceFailed | SelectorFailed | SelectedOutsideVocabulary

  datatype Generation = Generated(tokens: seq<nat>, reason: StopReason) | Failed(failure: Failure)

  // Who wrote a cache row last, and for which token; a row whose write failed has no entry.
  datatype Row = Row(request: nat, token: nat)

  // The first n rows hold the tokens of the context, written for this request.
  ghost predicate Holds(rows: map<nat, Row>, context: seq<nat>, n: nat, request: nat)
    requires n <= |context|
  {
    forall r :: 0 <= r < n ==> r in rows && rows[r] == Row(request, context[r])
  }

  // Rows a to a + |tokens| hold the tokens.
  ghost function Written(rows: map<nat, Row>, a: nat, tokens: seq<nat>, request: nat): map<nat, Row>
    decreases |tokens|
  {
    if tokens == [] then rows else Written(rows, a, tokens[..|tokens| - 1], request)[a + |tokens| - 1 := Row(request, tokens[|tokens| - 1])]
  }

  ghost function Spoiled(rows: map<nat, Row>, a: nat, n: nat): map<nat, Row> {
    map r | r in rows && !(a <= r < a + n) :: rows[r]
  }

  lemma {:induction false} WrittenAt(rows: map<nat, Row>, a: nat, tokens: seq<nat>, request: nat, r: nat)
    ensures a <= r < a + |tokens| ==> r in Written(rows, a, tokens, request) && Written(rows, a, tokens, request)[r] == Row(request, tokens[r - a])
    ensures !(a <= r < a + |tokens|) && r in rows ==> r in Written(rows, a, tokens, request) && Written(rows, a, tokens, request)[r] == rows[r]
    decreases |tokens|
  {
    if tokens != [] { WrittenAt(rows, a, tokens[..|tokens| - 1], request, r); }
  }

  // Appending the tokens after a held prefix holds the longer context.
  lemma WrittenExtends(rows: map<nat, Row>, context: seq<nat>, a: nat, request: nat)
    requires a <= |context| && Holds(rows, context, a, request)
    ensures Holds(Written(rows, a, context[a..], request), context, |context|, request)
  {
    var tokens := context[a..];
    forall r | 0 <= r < |context|
      ensures r in Written(rows, a, tokens, request) && Written(rows, a, tokens, request)[r] == Row(request, context[r])
    {
      WrittenAt(rows, a, tokens, request, r);
    }
  }

  lemma NothingHeld(rows: map<nat, Row>, request: nat)
    ensures Holds(rows, [], 0, request)
  {
  }

  // ---------------------------------------------------------------- the environment

  // Device work of a forward run, over rows a to a + rows of the context.
  datatype Operation =
    | Embed(tokens: seq<nat>)
    | Project(layer: nat)
    | AppendKeys(layer: nat, a: nat, rows: nat)
    | AppendValues(layer: nat, a: nat, rows: nat)
    | Attend(layer: nat, rows: nat)
    | Residual(layer: nat)
    | FeedForward(layer: nat)
    | Normalize
    | Logits

  // A token the selector returned, and the history it returned it for.
  datatype Pick = Pick(history: seq<nat>, token: nat)

  // The queue, the host and the selector as the session sees them. Everything they answer is arbitrary;
  // the ghost fields record what was accepted and waited for, what failed, and what was selected.
  class Environment {
    ghost var work: seq<Operation>
    ghost var attempts: nat
    ghost var waits: seq<nat>
    ghost var faults: nat
    ghost var picks: seq<Pick>

    // An operation facade returns a token, or a synchronous error.
    method Submitted(operation: Operation) returns (token: Option<nat>)
      modifies this`work, this`attempts, this`faults
      ensures attempts == old(attempts) + 1
      ensures token.Some? ==> work == old(work) + [operation] && faults == old(faults)
      ensures token.None? ==> work == old(work) && faults == old(faults) + 1
    {
      token := *;
      attempts := attempts + 1;
      if token.Some? {
        work := work + [operation];
      } else {
        faults := faults + 1;
      }
    }

    method Finished(token: nat) returns (ok: bool)
      modifies this`waits, this`faults
      ensures waits == old(waits) + [token] && faults == old(faults) + (if ok then 0 else 1)
    {
      ok := *;
      waits := waits + [token];
      faults := faults + (if ok then 0 else 1);
    }

    // A host copy or an allocation.
    method Succeeds() returns (ok: bool)
      modifies this`faults
      ensures faults == old(faults) + (if ok then 0 else 1)
    {
      ok := *;
      faults := faults + (if ok then 0 else 1);
    }

    method Selected(history: seq<nat>) returns (token: Option<nat>)
      modifies this`picks, this`faults
      ensures token.Some? ==> picks == old(picks) + [Pick(history, token.value)] && faults == old(faults)
      ensures token.None? ==> picks == old(picks) && faults == old(faults) + 1
    {
      token := *;
      if token.Some? {
        picks := picks + [Pick(history, token.value)];
      } else {
        faults := faults + 1;
      }
    }
  }

  // The work of one layer, of the first k layers, and of a whole forward run.
  ghost function LayerWork(layer: nat, a: nat, rows: nat): seq<Operation> {
    [Project(layer), AppendKeys(layer, a, rows), AppendValues(layer, a, rows), Attend(layer, a + rows), Residual(layer), FeedForward(layer)]
  }

  ghost function LayersWork(k: nat, a: nat, rows: nat): seq<Operation> {
    if k == 0 then [] else LayersWork(k - 1, a, rows) + LayerWork(k - 1, a, rows)
  }

  ghost function ForwardWork(layers: nat, a: nat, tokens: seq<nat>): seq<Operation> {
    [Embed(tokens)] + LayersWork(layers, a, |tokens|) + [Normalize, Logits]
  }

  // One run per token, each one row further.
  ghost function DecodeWork(layers: nat, a: nat, tokens: seq<nat>): seq<Operation> {
    if tokens == [] then []
    else DecodeWork(layers, a, tokens[..|tokens| - 1]) + ForwardWork(layers, a + |tokens| - 1, [tokens[|tokens| - 1]])
  }

  // Each token was selected for the prompt and the tokens before it.
  ghost function PicksFor(prompt: seq<nat>, tokens: seq<nat>): seq<Pick> {
    seq(|tokens|, i requires 0 <= i < |tokens| => Pick(prompt + tokens[..i], tokens[i]))
  }

  lemma PicksExtend(prompt: seq<nat>, tokens: seq<nat>, token: nat)
    ensures PicksFor(prompt, tokens + [token]) == PicksFor(prompt, tokens) + [Pick(prompt + tokens, token)]
  {
    var longer := tokens + [token];
    forall i | 0 <= i < |tokens| ensures longer[..i] == tokens[..i] {}
    assert longer[..|tokens|] == tokens;
  }

  const OIDS_PER_LAYER: nat := 24
  const OID_BASE: nat := 32

  // accepted_oid_capacity
  function LedgerBound(capacity: nat, layers: nat): nat {
    capacity * (layers * OIDS_PER_LAYER + OID_BASE)
  }

  // The bound leaves room for the three recorded submissions of every run.
  lemma LedgerBoundCovers(capacity: nat, layers: nat)
    ensures 3 * capacity <= LedgerBound(capacity, layers)
  {
    var perRun := layers * OIDS_PER_LAYER + OID_BASE;
    assert LedgerBound(capacity, layers) == 3 * capacity + capacity * (perRun - 3) && capacity * (perRun - 3) >= 0;
  }

  // ---------------------------------------------------------------- the session

  class TinyLlamaSession {
    const capacity: nat
    const vocabulary: nat
    const eos: nat
    const layers: nat
    const device: Environment

    var poisoned: bool
    var admitted: bool
    var draining: bool
    var runLength: nat
    var history: seq<nat>
    var results: seq<nat>
    var ledger: seq<nat>
    var ledgerCapacity: nat
    var prefixes: seq<nat>

    ghost var request: nat
    ghost var keyRows: seq<map<nat, Row>>
    ghost var valueRows: seq<map<nat, Row>>

    ghost predicate Shaped()
      reads this
    {
      layers > 0 && |prefixes| == layers && |keyRows| == layers && |valueRows| == layers && !draining
    }

    // Every layer has published the same n rows, and they hold the context of this request.
    ghost predicate Published(context: seq<nat>, n: nat)
      requires n <= |context|
      reads this
    {
      && Shaped()
      && forall l :: 0 <= l < layers ==>
        prefixes[l] == n && Holds(keyRows[l], context, n, request) && Holds(valueRows[l], context, n, request)
    }

    // Between calls an unpoisoned session has published a prefix of its history.
    ghost predicate Valid()
      reads this
    {
      && Shaped()
      && (!poisoned ==> if admitted then prefixes[0] <= |history| <= capacity && Published(history, prefixes[0])
                        else Published([], 0))
    }

    constructor (capacity: nat, vocabulary: nat, eos: nat, layers: nat, device: Environment)
      requires layers > 0
      ensures Valid() && !poisoned && !admitted
      ensures this.capacity == capacity && this.vocabulary == vocabulary && this.eos == eos && this.layers == layers && this.device == device
    {
      this.capacity, this.vocabulary, this.eos, this.layers, this.device := capacity, vocabulary, eos, layers, device;
      poisoned, admitted, draining, runLength := false, false, false, 0;
      history, results, ledger, ledgerCapacity := [], [], [], 0;
      prefixes := seq(layers, _ => 0);
      request, keyRows, valueRows := 0, seq(layers, _ => map[]), seq(layers, _ => map[]);
    }

    predicate Accepting()
      reads this
    {
      admitted && !draining && !poisoned
    }

    // Wait for every accepted submission, even after a failure; a failure poisons the session.
    method DrainRequest() returns (ok: bool)
      requires Shaped()
      modifies this`poisoned, this`draining, this`ledger, device`waits, device`faults
      ensures !draining
      ensures device.waits == old(device.waits) + if admitted then old(ledger) else []
      ensures if ok then device.faults == old(device.faults) else device.faults > old(device.faults)
      ensures ok ==> poisoned == old(poisoned)
      ensures !ok ==> poisoned && admitted
      ensures ledger == if admitted && ok && !poisoned then [] else old(ledger)
    {
      ok := true;
      if !admitted {
        return;
      }
      draining := true;
      for i := 0 to |ledger|
        invariant ledger == old(ledger) && device.waits == old(device.waits) + ledger[..i]
        invariant if ok then poisoned == old(poisoned) && device.faults == old(device.faults)
                  else poisoned && device.faults > old(device.faults)
      {
        var done := device.Finished(ledger[i]);
        if !done {
          ok := false;
          poisoned := true;
        }
      }
      draining := false;
      if ok && !poisoned {
        ledger := [];
      }
    }

    method PoisonAndDrain()
      requires Shaped()
      modifies this`poisoned, this`draining, this`ledger, device`waits, device`faults
      ensures poisoned && !draining && ledger == old(ledger)
      ensures device.waits == old(device.waits) + (if admitted then ledger else []) && device.faults >= old(device.faults)
    {
      poisoned := true;
      var ok := DrainRequest();
    }

    // One recorded submission: the bound is checked before the queue sees it, an error poisons.
    method Submit(operation: Operation) returns (token: Option<nat>, failure: Failure)
      requires Shaped()
      modifies this`poisoned, this`draining, this`ledger, device
      ensures !draining && device.picks == old(device.picks)
      ensures token.Some? ==> old(Accepting()) && !poisoned && ledger == old(ledger) + [token.value]
      ensures token.Some? ==> device.work == old(device.work) + [operation] && device.faults == old(device.faults)
      ensures token.None? ==> ledger == old(ledger) && device.work == old(device.work)
      ensures token.None? ==> (failure.NotAccepting? <==> !old(Accepting()))
      ensures token.None? ==> (failure.LedgerFull? <==> old(Accepting()) && |old(ledger)| >= ledgerCapacity)
      ensures token.None? ==> failure.NotAccepting? || failure.LedgerFull? || failure.DeviceFailed?
      ensures token.None? ==> (failure.DeviceFailed? <==> device.faults > old(device.faults))
    {
      failure := DeviceFailed;
      if !Accepting() {
        return None, NotAccepting;
      }
      if |ledger| >= ledgerCapacity {
        return None, LedgerFull;
      }
      token := device.Submitted(operation);
      if token.Some? {
        ledger := ledger + [token.value];
      } else {
        PoisonAndDrain();
      }
    }

    method Wait(token: nat) returns (ok: bool)
      requires Shaped()
      modifies this`poisoned, this`draining, this`ledger, device`waits, device`faults
      ensures !draining && ledger == old(ledger)
      ensures poisoned == (old(poisoned) || !ok)
      ensures ok ==> device.waits == old(device.waits) + [token] && device.faults == old(device.faults)
      ensures !ok ==> device.faults > old(device.faults)
    {
      ok := device.Finished(token);
      if !ok {
        PoisonAndDrain();
      }
    }

    // ---------------------------------------------------------------- requests

    // A replacement is published only after the old work drained and every owner was made; any failure
    // before that leaves the admitted request and the published rows as they were.
    method PrepareForwardRequest(length: nat) returns (failure: Option<Failure>)
      requires Valid()
      modifies this, device`waits, device`faults
      ensures Valid()
      ensures failure.None? ==>
        && Accepting() && runLength == length && 0 < length <= capacity
        && history == [] && results == [] && ledger == [] && ledgerCapacity == LedgerBound(capacity, layers)
        && request == old(request) + 1 && Published([], 0)
      ensures failure.Some? ==>
        && admitted == old(admitted) && runLength == old(runLength) && history == old(history) && results == old(results)
        && prefixes == old(prefixes) && keyRows == old(keyRows) && valueRows == old(valueRows) && request == old(request)
      // what is refused, and that nothing else fails unless old work or a setup step does
      ensures failure == Some(LengthMismatch) <==> length == 0
      ensures failure == Some(PromptTooLong) <==> length > capacity
      ensures failure == Some(SessionPoisoned) <==> 0 < length <= capacity && old(poisoned)
      ensures failure.Some? && failure.value in {DrainFailed, SetupFailed} <==> device.faults > old(device.faults)
      ensures failure.Some? ==> failure.value in {LengthMismatch, PromptTooLong, SessionPoisoned, DrainFailed, SetupFailed}
      ensures device.faults >= old(device.faults) && (old(poisoned) ==> poisoned)
      // the old work is drained before anything is replaced
      ensures device.waits == old(device.waits) + if 0 < length <= capacity && !old(poisoned) && old(admitted) then old(ledger) else []
    {
      hide LedgerBound, Holds;
      if length == 0 {
        return Some(LengthMismatch);
      }
      if length > capacity {
        return Some(PromptTooLong);
      }
      if poisoned {
        return Some(SessionPoisoned);
      }
      var drained := DrainRequest();
      if !drained {
        return Some(DrainFailed);
      }
      var made := device.Succeeds();
      if !made {
        return Some(SetupFailed);
      }
      Publish(length);
      failure := None;
    }

    // The replacement request over empty cache prefixes.
    method Publish(length: nat)
      requires Shaped() && !poisoned && length <= capacity
      modifies this
      ensures Accepting() && runLength == length && !poisoned
      ensures history == [] && results == [] && ledger == [] && ledgerCapacity == LedgerBound(capacity, layers)
      ensures request == old(request) + 1 && Published([], 0) && Valid()
    {
      hide LedgerBound, Holds;
      prefixes := seq(layers, _ => 0);
      admitted, runLength := true, length;
      history, results, ledger := [], [], [];
      ledgerCapacity := LedgerBound(capacity, layers);
      request := request + 1;
      forall l | 0 <= l < layers ensures Holds(keyRows[l], [], 0, request) && Holds(valueRows[l], [], 0, request) {
        NothingHeld(keyRows[l], request);
        NothingHeld(valueRows[l], request);
      }
    }

    // ---------------------------------------------------------------- one decoder layer

    // Both appends are attempted and waited; a failed one may have spoiled its rows.
    method AppendRows(layer: nat, a: nat, tokens: seq<nat>) returns (ok: bool)
      requires Shaped() && layer < layers
      modifies this`keyRows, this`valueRows, device
      ensures Shaped() && device.picks == old(device.picks) && device.attempts == old(device.attempts) + 2
      ensures forall l :: 0 <= l < layers && l != layer ==> keyRows[l] == old(keyRows)[l] && valueRows[l] == old(valueRows)[l]
      ensures ok ==> keyRows[layer] == Written(old(keyRows)[layer], a, tokens, request)
      ensures ok ==> valueRows[layer] == Written(old(valueRows)[layer], a, tokens, request)
      ensures ok ==> device.work == old(device.work) + [AppendKeys(layer, a, |tokens|), AppendValues(layer, a, |tokens|)]
      ensures if ok then device.faults == old(device.faults) else device.faults > old(device.faults)
    {
      var keyToken := device.Submitted(AppendKeys(layer, a, |tokens|));
      var valueToken := device.Submitted(AppendValues(layer, a, |tokens|));
      var keyDone, valueDone := false, false;
      if keyToken.Some? {
        keyDone := device.Finished(keyToken.value);
        keyRows := keyRows[layer := if keyDone then Written(keyRows[layer], a, tokens, request) else Spoiled(keyRows[layer], a, |tokens|)];
      }
      if valueToken.Some? {
        valueDone := device.Finished(valueToken.value);
        valueRows := valueRows[layer := if valueDone then Written(valueRows[layer], a, tokens, request) else Spoiled(valueRows[layer], a, |tokens|)];
      }
      ok := keyDone && valueDone;
    }

    // Attention over rows 0 to n: every row it may read was written for this request.
    method Sdpa(layer: nat, ghost context: seq<nat>, n: nat) returns (ok: bool)
      requires Shaped() && layer < layers && n == |context|
      requires Holds(keyRows[layer], context, n, request) && Holds(valueRows[layer], context, n, request)
      modifies device
      ensures device.picks == old(device.picks)
      ensures ok ==> device.work == old(device.work) + [Attend(layer, n)] && device.faults == old(device.faults)
      ensures !ok ==> device.faults > old(device.faults)
    {
      ok := Step(Attend(layer, n));
    }

    // A waited operation.
    method Step(operation: Operation) returns (ok: bool)
      modifies device
      ensures device.picks == old(device.picks)
      ensures ok ==> device.work == old(device.work) + [operation] && device.faults == old(device.faults)
      ensures !ok ==> device.faults > old(device.faults)
    {
      var token := device.Submitted(operation);
      ok := false;
      if token.Some? {
        ok := device.Finished(token.value);
      }
    }

    // run_decoder_layer_forward: the rows of `tokens` continue the published prefix at a. The new prefix
    // is returned, and published by the caller, only when every stage succeeded.
    method RunLayer(layer: nat, a: nat, tokens: seq<nat>, published: nat, ghost context: seq<nat>) returns (prefix: nat, failure: Option<Failure>)
      requires Shaped() && layer < layers && a <= |context| && context == context[..a] + tokens
      requires Holds(keyRows[layer], context, a, request) && Holds(valueRows[layer], context, a, request)
      modifies this`keyRows, this`valueRows, device
      ensures Shaped() && device.picks == old(device.picks)
      ensures forall l :: 0 <= l < layers && l != layer ==> keyRows[l] == old(keyRows)[l] && valueRows[l] == old(valueRows)[l]
      ensures failure == Some(StageRejected) <==> tokens == [] || a > capacity || a + |tokens| > capacity || published != a
      ensures failure.Some? ==> failure.value == StageRejected || failure.value == DeviceFailed
      ensures failure == Some(DeviceFailed) <==> device.faults > old(device.faults)
      ensures failure != Some(DeviceFailed) ==> device.faults == old(device.faults)
      ensures failure.None? ==> prefix == a + |tokens| == |context|
      ensures failure.None? ==> Holds(keyRows[layer], context, |context|, request) && Holds(valueRows[layer], context, |context|, request)
      ensures failure.None? ==> device.work == old(device.work) + LayerWork(layer, a, |tokens|)
    {
      prefix := published;
      if tokens == [] || a > capacity {
        return prefix, Some(StageRejected);
      }
      var initialized := a + |tokens|;
      if initialized > capacity || published != a {
        return prefix, Some(StageRejected);
      }
      var ready := Step(Project(layer));
      if !ready {
        return prefix, Some(DeviceFailed);
      }
      var appended := AppendRows(layer, a, tokens);
      if !appended {
        return prefix, Some(DeviceFailed);
      }
      assert context[a..] == tokens;
      WrittenExtends(old(keyRows)[layer], context, a, request);
      WrittenExtends(old(valueRows)[layer], context, a, request);
      prefix := initialized;
      var attended := Sdpa(layer, context, initialized);
      if !attended {
        return prefix, Some(DeviceFailed);
      }
      var residual := Step(Residual(layer));
      if !residual {
        return prefix, Some(DeviceFailed);
      }
      var mlp := Step(FeedForward(layer));
      failure := if mlp then None else Some(DeviceFailed);
    }

    // ---------------------------------------------------------------- forward runs

    // Each layer's prefix is published after its layer completed.
    method RunLayers(a: nat, tokens: seq<nat>, ghost context: seq<nat>) returns (failure: Option<Failure>)
      requires Shaped() && a <= |context| && context == context[..a] + tokens
      requires forall l :: 0 <= l < layers ==> Holds(keyRows[l], context, a, request) && Holds(valueRows[l], context, a, request)
      modifies this`prefixes, this`keyRows, this`valueRows, device
      ensures Shaped() && device.picks == old(device.picks)
      ensures failure.None? ==> Published(context, |context|)
      ensures failure.None? ==> device.work == old(device.work) + LayersWork(layers, a, |tokens|)
      ensures failure.Some? ==> failure.value == StageRejected || failure.value == DeviceFailed
      ensures if failure == Some(DeviceFailed) then device.faults > old(device.faults) else device.faults == old(device.faults)
      ensures tokens != [] && |context| <= capacity && (forall l :: 0 <= l < layers ==> old(prefixes)[l] == a) ==> failure != Some(StageRejected)
    {
      hide LayerWork;
      for index := 0 to layers
        invariant Shaped() && device.picks == old(device.picks) && device.faults == old(device.faults)
        invariant device.work == old(device.work) + LayersWork(index, a, |tokens|)
        invariant forall l :: 0 <= l < index ==>
          prefixes[l] == |context| && Holds(keyRows[l], context, |context|, request) && Holds(valueRows[l], context, |context|, request)
        invariant forall l :: index <= l < layers ==>
          prefixes[l] == old(prefixes)[l] && keyRows[l] == old(keyRows)[l] && valueRows[l] == old(valueRows)[l]
      {
        var prefix, failed := RunLayer(index, a, tokens, prefixes[index], context);
        if failed.Some? {
          return failed;
        }
        prefixes := prefixes[index := prefix];
      }
      failure := None;
    }

    // Upload, embedding, the layers, the final normalization and the logits; the last producer.
    method Forward(a: nat, tokens: seq<nat>, ghost context: seq<nat>) returns (producer: Option<nat>, failure: Failure)
      requires Shaped() && Accepting() && a <= |context| && context == context[..a] + tokens
      requires forall l :: 0 <= l < layers ==> Holds(keyRows[l], context, a, request) && Holds(valueRows[l], context, a, request)
      modifies this`prefixes, this`keyRows, this`valueRows, this`poisoned, this`draining, this`ledger, device
      ensures Shaped() && device.picks == old(device.picks)
      ensures producer.None? ==> poisoned && failure in {StageRejected, LedgerFull, DeviceFailed}
      ensures producer.None? && failure.DeviceFailed? ==> device.faults > old(device.faults)
      ensures producer.Some? ==> Accepting() && Published(context, |context|)
      ensures producer.Some? ==> device.work == old(device.work) + ForwardWork(layers, a, tokens) && device.faults == old(device.faults)
      ensures producer.Some? ==> |ledger| == |old(ledger)| + 3 && ledger[|ledger| - 1] == producer.value
      ensures |old(ledger)| + 3 <= ledgerCapacity && producer.None? ==> failure != LedgerFull
      ensures tokens != [] && |context| <= capacity && (forall l :: 0 <= l < layers ==> old(prefixes)[l] == a) && producer.None? ==> failure != StageRejected
    {
      hide ForwardWork;
      producer, failure := RunSubmitted(a, tokens, context);
      if producer.None? {
        PoisonAndDrain();
      }
    }

    method RunSubmitted(a: nat, tokens: seq<nat>, ghost context: seq<nat>) returns (producer: Option<nat>, failure: Failure)
      requires Shaped() && Accepting() && a <= |context| && context == context[..a] + tokens
      requires forall l :: 0 <= l < layers ==> Holds(keyRows[l], context, a, request) && Holds(valueRows[l], context, a, request)
      modifies this`prefixes, this`keyRows, this`valueRows, this`poisoned, this`draining, this`ledger, device
      ensures Shaped() && device.picks == old(device.picks)
      ensures producer.None? ==> failure in {StageRejected, LedgerFull, DeviceFailed}
      ensures producer.None? && failure.DeviceFailed? ==> device.faults > old(device.faults)
      ensures producer.Some? ==> Accepting() && Published(context, |context|)
      ensures producer.Some? ==> device.work == old(device.work) + ForwardWork(layers, a, tokens) && device.faults == old(device.faults)
      ensures producer.Some? ==> |ledger| == |old(ledger)| + 3 && ledger[|ledger| - 1] == producer.value
      ensures |old(ledger)| + 3 <= ledgerCapacity && producer.None? ==> failure != LedgerFull
      ensures tokens != [] && |context| <= capacity && (forall l :: 0 <= l < layers ==> old(prefixes)[l] == a) && producer.None? ==> failure != StageRejected
    {
      hide LayersWork, Holds;
      var uploaded := device.Succeeds();
      if !uploaded {
        return None, DeviceFailed;
      }
      var embedding, refused := Submit(Embed(tokens));
      if embedding.None? {
        return None, refused;
      }
      var failed := RunLayers(a, tokens, context);
      if failed.Some? {
        return None, failed.value;
      }
      var norm, refusedNorm := Submit(Normalize);
      if norm.None? {
        return None, refusedNorm;
      }
      var normalized := Wait(norm.value);
      if !normalized {
        return None, DeviceFailed;
      }
      producer, failure := Submit(Logits);
    }

    // The whole prompt in one run, from an empty prefix.
    method ForwardPrefill(tokens: seq<nat>) returns (producer: Option<nat>, failure: Failure)
      requires Shaped()
      modifies this`prefixes, this`keyRows, this`valueRows, this`poisoned, this`draining, this`ledger, device
      ensures Shaped() && device.picks == old(device.picks)
      ensures producer.Some? ==> Accepting() && Published(tokens, |tokens|)
      ensures producer.Some? ==> device.work == old(device.work) + ForwardWork(layers, 0, tokens) && device.faults == old(device.faults)
      ensures producer.Some? ==> |ledger| == |old(ledger)| + 3 && ledger[|ledger| - 1] == producer.value
      ensures producer.None? && failure.NotAccepting? <==> !old(Accepting())
      ensures producer.None? && failure.LengthMismatch? <==> old(Accepting()) && (|tokens| != runLength || tokens == [])
      ensures producer.None? && failure.TokenOutsideVocabulary?
        <==> old(Accepting()) && |tokens| == runLength && tokens != [] && exists i :: 0 <= i < |tokens| && tokens[i] >= vocabulary
      ensures producer.None? ==> failure in {NotAccepting, LengthMismatch, TokenOutsideVocabulary} || poisoned
      ensures producer.None? ==> failure in {NotAccepting, LengthMismatch, TokenOutsideVocabulary, StageRejected, LedgerFull, DeviceFailed}
      ensures producer.None? && failure.DeviceFailed? ==> device.faults > old(device.faults)
      ensures |old(ledger)| + 3 <= ledgerCapacity && producer.None? ==> failure != LedgerFull
      ensures |tokens| <= capacity && (forall l :: 0 <= l < layers ==> old(prefixes)[l] == 0) && producer.None? ==> failure != StageRejected
    {
      hide ForwardWork;
      if !Accepting() {
        return None, NotAccepting;
      }
      if |tokens| != runLength || tokens == [] {
        return None, LengthMismatch;
      }
      for i := 0 to |tokens|
        invariant forall k :: 0 <= k < i ==> tokens[k] < vocabulary
      {
        if tokens[i] >= vocabulary {
          return None, TokenOutsideVocabulary;
        }
      }
      assert tokens == tokens[..0] + tokens;
      producer, failure := Forward(0, tokens, tokens);
    }

    // One token after the prefix that all layers share.
    method ForwardDecode(token: nat) returns (producer: Option<nat>, failure: Failure)
      requires Valid()
      modifies this`prefixes, this`keyRows, this`valueRows, this`poisoned, this`draining, this`ledger, device
      ensures Shaped() && device.picks == old(device.picks)
      ensures producer.Some? ==> old(prefixes)[0] <= |history| && Accepting()
      ensures producer.Some? ==> Published(history[..old(prefixes)[0]] + [token], old(prefixes)[0] + 1)
      ensures producer.Some? ==> device.work == old(device.work) + ForwardWork(layers, old(prefixes)[0], [token]) && device.faults == old(device.faults)
      ensures producer.Some? ==> |ledger| == |old(ledger)| + 3 && ledger[|ledger| - 1] == producer.value
      ensures producer.None? && failure.NotAccepting? <==> !old(Accepting())
      ensures producer.None? && failure.TokenOutsideVocabulary? <==> old(Accepting()) && token >= vocabulary
      ensures producer.None? && failure.CapacityExceeded? <==> old(Accepting()) && token < vocabulary && old(prefixes)[0] >= capacity
      ensures producer.None? ==> failure in {NotAccepting, TokenOutsideVocabulary, CapacityExceeded} || poisoned
      ensures producer.None? ==> failure in {NotAccepting, TokenOutsideVocabulary, CapacityExceeded, LedgerFull, DeviceFailed}
      ensures producer.None? && failure.DeviceFailed? ==> device.faults > old(device.faults)
      ensures |old(ledger)| + 3 <= ledgerCapacity && producer.None? ==> failure != LedgerFull
    {
      hide ForwardWork;
      if !Accepting() {
        return None, NotAccepting;
      }
      if token >= vocabulary {
        return None, TokenOutsideVocabulary;
      }
      var position := prefixes[0];
      if position >= capacity {
        return None, CapacityExceeded;
      }
      for l := 0 to layers {
        if prefixes[l] != position {
          return None, PrefixMismatch;
        }
      }
      ghost var context := history[..position] + [token];
      assert context[..position] == history[..position];
      producer, failure := Forward(position, [token], context);
    }

    // ---------------------------------------------------------------- generation

    // The selector sees final logits that the queue finished, over a history whose rows are all published.
    method SelectNext(producer: nat) returns (selected: Option<nat>, failure: Failure)
      requires Accepting() && Published(history, |history|)
      modifies this`poisoned, this`draining, this`ledger, device`waits, device`faults, device`picks
      ensures Shaped() && ledger == old(ledger)
      ensures selected.Some? ==> Accepting() && device.faults == old(device.faults)
      ensures selected.Some? ==> device.picks == old(device.picks) + [Pick(history, selected.value)] && device.waits == old(device.waits) + [producer]
      ensures selected.None? ==> poisoned && failure in {InvalidProducer, DeviceFailed, SelectorFailed} && device.picks == old(device.picks)
      ensures selected.None? ==> (failure == InvalidProducer <==> producer !in old(ledger))
      ensures selected.None? && failure != InvalidProducer ==> device.faults > old(device.faults)
    {
      failure := SelectorFailed;
      if producer !in ledger {
        PoisonAndDrain();
        return None, InvalidProducer;
      }
      var ready := Wait(producer);
      if !ready {
        return None, DeviceFailed;
      }
      selected := device.Selected(history);
      if selected.None? {
        PoisonAndDrain();
      }
    }

    // Why a generation stopped, in order of precedence.
    predicate StopsWith(prompt: seq<nat>, tokens: seq<nat>, limit: nat, reason: StopReason) {
      if limit == 0 then tokens == [] && reason == MaxNewTokens
      else if tokens != [] && tokens[|tokens| - 1] == eos then reason == EndOfSequence
      else if |tokens| >= limit then |tokens| == limit && reason == MaxNewTokens
      else |prompt| + |tokens| == capacity && reason == ContextCapacity
    }

    // validate_generation_prompt
    method ValidatePrompt(prompt: seq<nat>) returns (failure: Option<Failure>)
      ensures failure == if prompt == [] then Some(EmptyPrompt) else if |prompt| > capacity then Some(PromptTooLong)
                         else if exists i :: 0 <= i < |prompt| && prompt[i] >= vocabulary then Some(TokenOutsideVocabulary) else None
    {
      if prompt == [] {
        return Some(EmptyPrompt);
      }
      if |prompt| > capacity {
        return Some(PromptTooLong);
      }
      for i := 0 to |prompt|
        invariant forall k :: 0 <= k < i ==> prompt[k] < vocabulary
      {
        if prompt[i] >= vocabulary {
          return Some(TokenOutsideVocabulary);
        }
      }
      failure := None;
    }

    // Failures that a generation reports before any device work of its own.
    predicate Rejection(f: Failure) {
      f in {EmptyPrompt, PromptTooLong, TokenOutsideVocabulary, SessionPoisoned, DrainFailed, SetupFailed}
    }

    method GenerateTokens(prompt: seq<nat>, limit: nat) returns (r: Generation)
      requires Valid()
      modifies this, device
      ensures Valid()
      // what a successful generation returned, and why it stopped
      ensures r.Generated? ==> StopsWith(prompt, r.tokens, limit, r.reason)
      ensures r.Generated? ==> forall i :: 0 <= i < |r.tokens| ==> r.tokens[i] < vocabulary
      ensures r.Generated? ==> forall i :: 0 <= i < |r.tokens| - 1 ==> r.tokens[i] != eos
      ensures r.Generated? ==> |prompt| + |r.tokens| <= capacity && |r.tokens| <= limit
      // the tokens are what the selector returned, each for the prompt and the tokens before it, and the
      // device ran the prompt once and then every token but the last
      ensures r.Generated? ==> device.picks == old(device.picks) + PicksFor(prompt, r.tokens)
      ensures r.Generated? ==> device.work == old(device.work) + GenerationWork(prompt, r.tokens, limit)
      // the session after it: the history, and the rows every layer published
      ensures r.Generated? ==> Accepting() && history == if limit == 0 then [] else prompt + r.tokens
      ensures r.Generated? ==> prefixes[0] == if r.tokens == [] then |history| else |history| - 1
      // only a prompt, a poisoned session, or a fault of old work, setup, a device operation or the selector can fail
      ensures r.Failed? ==> Rejection(r.failure) || (poisoned && r.failure in {DeviceFailed, SelectorFailed, SelectedOutsideVocabulary})
      ensures r.Failed? && Rejection(r.failure) ==> history == old(history) && prefixes == old(prefixes) && admitted == old(admitted)
      ensures r == Failed(EmptyPrompt) <==> prompt == []
      ensures r == Failed(PromptTooLong) <==> |prompt| > capacity
      ensures r == Failed(TokenOutsideVocabulary) <==> 0 < |prompt| <= capacity && exists i :: 0 <= i < |prompt| && prompt[i] >= vocabulary
      ensures r == Failed(SessionPoisoned) <==> 0 < |prompt| <= capacity && (forall i :: 0 <= i < |prompt| ==> prompt[i] < vocabulary) && old(poisoned)
      ensures r.Failed? && r.failure in {DrainFailed, SetupFailed, DeviceFailed, SelectorFailed} ==> device.faults > old(device.faults)
      ensures r.Generated? ==> device.faults == old(device.faults)
      ensures r == Failed(SelectedOutsideVocabulary) ==> |device.picks| > |old(device.picks)| && device.picks[|device.picks| - 1].token >= vocabulary
      ensures old(poisoned) ==> poisoned && r.Failed?
    {
      hide LedgerBound, Holds, ForwardWork, PicksFor, DecodeWork;
      var invalid := ValidatePrompt(prompt);
      if invalid.Some? {
        return Failed(invalid.value);
      }
      var unprepared := PrepareForwardRequest(|prompt|);
      if unprepared.Some? {
        return Failed(unprepared.value);
      }
      NothingPicked(prompt);
      if limit == 0 {
        return Generated([], MaxNewTokens);
      }
      r := GeneratePrepared(prompt, limit);
    }

    ghost function GenerationWork(prompt: seq<nat>, tokens: seq<nat>, limit: nat): seq<Operation> {
      if limit == 0 then []
      else ForwardWork(layers, 0, prompt) + if tokens == [] then [] else DecodeWork(layers, |prompt|, tokens[..|tokens| - 1])
    }

    lemma NothingPicked(prompt: seq<nat>)
      ensures PicksFor(prompt, []) == [] && DecodeWork(layers, |prompt|, []) == [] && GenerationWork(prompt, [], 0) == []
    {
    }

    // A generation with a nonzero limit, on a request just prepared for its prompt.
    method GeneratePrepared(prompt: seq<nat>, limit: nat) returns (r: Generation)
      requires Accepting() && Published([], 0) && results == [] && ledger == [] && runLength == |prompt| && 0 < limit
      requires 0 < |prompt| <= capacity && (forall i :: 0 <= i < |prompt| ==> prompt[i] < vocabulary)
      requires ledgerCapacity == LedgerBound(capacity, layers)
      modifies this`history, this`results, this`prefixes, this`keyRows, this`valueRows, this`poisoned, this`draining, this`ledger, device
      ensures Valid()
      ensures r.Generated? ==> StopsWith(prompt, r.tokens, limit, r.reason)
      ensures r.Generated? ==> forall i :: 0 <= i < |r.tokens| ==> r.tokens[i] < vocabulary
      ensures r.Generated? ==> forall i :: 0 <= i < |r.tokens| - 1 ==> r.tokens[i] != eos
      ensures r.Generated? ==> |prompt| + |r.tokens| <= capacity && |r.tokens| <= limit
      ensures r.Generated? ==> device.picks == old(device.picks) + PicksFor(prompt, r.tokens) && device.faults == old(device.faults)
      ensures r.Generated? ==> device.work == old(device.work) + GenerationWork(prompt, r.tokens, limit)
      ensures r.Generated? ==> Accepting() && history == prompt + r.tokens
      ensures r.Generated? ==> prefixes[0] == if r.tokens == [] then |history| else |history| - 1
      ensures r.Failed? ==> poisoned && r.failure in {DeviceFailed, SelectorFailed, SelectedOutsideVocabulary}
      ensures r.Failed? && r.failure != SelectedOutsideVocabulary ==> device.faults > old(device.faults)
      ensures r == Failed(SelectedOutsideVocabulary) ==> |device.picks| > |old(device.picks)| && device.picks[|device.picks| - 1].token >= vocabulary
    {
      hide LedgerBound, Holds, ForwardWork, PicksFor, DecodeWork;
      NothingPicked(prompt);
      LedgerBoundCovers(capacity, layers);
      var current, failure := ForwardPrefill(prompt);
      if current.None? {
        return Failed(failure);
      }
      assert current.value in ledger;
      var ready := Wait(current.value);
      if !ready {
        return Failed(DeviceFailed);
      }
      history := prompt;
      if |history| == capacity {
        return Generated([], ContextCapacity);
      }
      r := GenerateFrom(prompt, limit, current.value);
    }

    // The state between two rounds of the selection loop; picks, work and faults are those from before it.
    ghost predicate Generating(prompt: seq<nat>, limit: nat, producer: nat, picks: seq<Pick>, work: seq<Operation>, faults: nat)
      reads this, device
    {
      && Accepting() && Published(history, |history|) && history == prompt + results
      && |history| < capacity && |results| < limit
      && (forall i :: 0 <= i < |results| ==> results[i] < vocabulary && results[i] != eos)
      && producer in ledger && |ledger| == 3 * (|results| + 1) && ledgerCapacity == LedgerBound(capacity, layers)
      && device.picks == picks + PicksFor(prompt, results) && device.faults == faults
      && device.work == work + DecodeWork(layers, |prompt|, results)
    }

    // What the loop returns.
    ghost predicate Ended(r: Generation, prompt: seq<nat>, limit: nat, picks: seq<Pick>, work: seq<Operation>, faults: nat)
      reads this, device
    {
      && Valid()
      && (r.Generated? ==>
            && StopsWith(prompt, r.tokens, limit, r.reason)
            && (forall i :: 0 <= i < |r.tokens| ==> r.tokens[i] < vocabulary)
            && (forall i :: 0 <= i < |r.tokens| - 1 ==> r.tokens[i] != eos)
            && |prompt| + |r.tokens| <= capacity && 0 < |r.tokens| <= limit
            && Accepting() && history == prompt + r.tokens && prefixes[0] == |history| - 1
            && device.picks == picks + PicksFor(prompt, r.tokens) && device.faults == faults
            && device.work == work + DecodeWork(layers, |prompt|, r.tokens[..|r.tokens| - 1]))
      && (r.Failed? ==> poisoned && r.failure in {DeviceFailed, SelectorFailed, SelectedOutsideVocabulary})
      && (r.Failed? && r.failure != SelectedOutsideVocabulary ==> device.faults > faults)
      && (r == Failed(SelectedOutsideVocabulary) ==> |device.picks| > |picks| && device.picks[|device.picks| - 1].token >= vocabulary)
    }

    // The loop after prefill.
    method GenerateFrom(prompt: seq<nat>, limit: nat, first: nat) returns (r: Generation)
      requires Generating(prompt, limit, first, device.picks, device.work, device.faults) && results == []
      modifies this`history, this`results, this`prefixes, this`keyRows, this`valueRows, this`poisoned, this`draining, this`ledger, device
      ensures Ended(r, prompt, limit, old(device.picks), old(device.work), old(device.faults))
    {
      ghost var picks, work, faults := device.picks, device.work, device.faults;
      var current := first;
      while true
        invariant Generating(prompt, limit, current, picks, work, faults)
        decreases capacity - |history|
      {
        hide Ended, PicksFor, DecodeWork, Published, LedgerBound;
        var ended;
        ended, current := Round(prompt, limit, current, picks, work, faults);
        if ended.Some? {
          return ended.value;
        }
      }
    }

    // The same once a token is committed, before it stops the loop or is decoded.
    ghost predicate Committed(prompt: seq<nat>, limit: nat, picks: seq<Pick>, work: seq<Operation>, faults: nat)
      reads this, device
    {
      && Accepting() && history == prompt + results && results != [] && Published(history, |history| - 1)
      && |history| <= capacity && |results| <= limit
      && (forall i :: 0 <= i < |results| ==> results[i] < vocabulary)
      && (forall i :: 0 <= i < |results| - 1 ==> results[i] != eos)
      && |ledger| == 3 * |results| && ledgerCapacity == LedgerBound(capacity, layers)
      && device.picks == picks + PicksFor(prompt, results) && device.faults == faults
      && device.work == work + DecodeWork(layers, |prompt|, results[..|results| - 1])
    }

    // One round: select, commit, stop or decode.
    method Round(prompt: seq<nat>, limit: nat, producer: nat, ghost picks: seq<Pick>, ghost work: seq<Operation>, ghost faults: nat)
      returns (r: Option<Generation>, next: nat)
      requires Generating(prompt, limit, producer, picks, work, faults)
      modifies this`history, this`results, this`prefixes, this`keyRows, this`valueRows, this`poisoned, this`draining, this`ledger, device
      ensures r.Some? ==> Ended(r.value, prompt, limit, picks, work, faults)
      ensures r.None? ==> Generating(prompt, limit, next, picks, work, faults) && |history| > |old(history)|
    {
      next := producer;
      r := CommitRound(prompt, limit, producer, picks, work, faults);
      if r.Some? {
        return;
      }
      var token := results[|results| - 1];
      var reason := StopAfter(token, limit);
      hide Generating, Ended, PicksFor, DecodeWork;
      if reason.Some? {
        var ended := EndRound(reason.value, prompt, limit, picks, work, faults);
        return Some(ended), next;
      }
      r, next := DecodeRound(prompt, limit, producer, picks, work, faults);
    }

    method CommitRound(prompt: seq<nat>, limit: nat, producer: nat, ghost picks: seq<Pick>, ghost work: seq<Operation>, ghost faults: nat)
      returns (r: Option<Generation>)
      requires Generating(prompt, limit, producer, picks, work, faults)
      modifies this`history, this`results, this`poisoned, this`draining, this`ledger, device`waits, device`faults, device`picks
      ensures r.Some? ==> Ended(r.value, prompt, limit, picks, work, faults)
      ensures r.None? ==> Committed(prompt, limit, picks, work, faults) && |history| == |old(history)| + 1
    {
      hide LedgerBound, Holds, PicksFor, DecodeWork;
      ghost var earlier := results;
      var selected, unselected := CommitNext(producer);
      if selected.None? {
        return Some(Failed(unselected));
      }
      PicksExtend(prompt, earlier, selected.value);
      assert results[..|results| - 1] == earlier && history == prompt + results;
      r := None;
    }

    method EndRound(reason: StopReason, prompt: seq<nat>, limit: nat, ghost picks: seq<Pick>, ghost work: seq<Operation>, ghost faults: nat)
      returns (r: Generation)
      requires Committed(prompt, limit, picks, work, faults)
      requires Some(reason) == if results[|results| - 1] == eos then Some(EndOfSequence) else if |results| >= limit then Some(MaxNewTokens)
                               else if |history| >= capacity then Some(ContextCapacity) else None
      modifies this`results
      ensures Ended(r, prompt, limit, picks, work, faults)
    {
      hide LedgerBound, Holds, PicksFor, DecodeWork;
      r := Finish(reason);
    }

    method DecodeRound(prompt: seq<nat>, limit: nat, producer: nat, ghost picks: seq<Pick>, ghost work: seq<Operation>, ghost faults: nat)
      returns (r: Option<Generation>, next: nat)
      requires Committed(prompt, limit, picks, work, faults)
      requires results[|results| - 1] != eos && |results| < limit && |history| < capacity
      modifies this`prefixes, this`keyRows, this`valueRows, this`poisoned, this`draining, this`ledger, device
      ensures r.Some? ==> Ended(r.value, prompt, limit, picks, work, faults)
      ensures r.None? ==> Generating(prompt, limit, next, picks, work, faults)
    {
      hide LedgerBound, Holds, ForwardWork, PicksFor, DecodeWork;
      next := producer;
      ghost var n := |results| - 1;
      DecodeExtends(|prompt|, results[..n], results[n]);
      assert results[..n] + [results[n]] == results;
      LedgerBoundCovers(capacity, layers);
      assert history[..|history| - 1] + [results[n]] == history;
      var producer', failure := ForwardDecode(results[|results| - 1]);
      if producer'.None? {
        return Some(Failed(failure)), next;
      }
      r, next := None, producer'.value;
    }

    // Stop precedence: end of sequence, then the limit, then the context.
    method StopAfter(token: nat, limit: nat) returns (reason: Option<StopReason>)
      ensures reason == if token == eos then Some(EndOfSequence) else if |results| >= limit then Some(MaxNewTokens)
                        else if |history| >= capacity then Some(ContextCapacity) else None
    {
      if token == eos {
        return Some(EndOfSequence);
      }
      if |results| >= limit {
        return Some(MaxNewTokens);
      }
      reason := if |history| >= capacity then Some(ContextCapacity) else None;
    }

    // Select the next token and commit it to the history and the results.
    method CommitNext(producer: nat) returns (selected: Option<nat>, failure: Failure)
      requires Accepting() && Published(history, |history|) && |history| < capacity && producer in ledger
      modifies this`history, this`results, this`poisoned, this`draining, this`ledger, device`waits, device`faults, device`picks
      ensures Valid() && ledger == old(ledger)
      ensures selected.Some? ==> selected.value < vocabulary && history == old(history) + [selected.value] && results == old(results) + [selected.value]
      ensures selected.Some? ==> Accepting() && Published(history, |history| - 1) && device.faults == old(device.faults)
      ensures selected.Some? ==> device.picks == old(device.picks) + [Pick(old(history), selected.value)]
      ensures selected.None? ==> poisoned && failure in {DeviceFailed, SelectorFailed, SelectedOutsideVocabulary}
      ensures selected.None? && failure != SelectedOutsideVocabulary ==> device.faults > old(device.faults) && device.picks == old(device.picks)
      ensures selected.None? && failure == SelectedOutsideVocabulary ==>
        |device.picks| > |old(device.picks)| && device.picks[|device.picks| - 1].token >= vocabulary
    {
      hide Holds;
      selected, failure := SelectNext(producer);
      if selected.None? {
        return;
      }
      if selected.value >= vocabulary {
        PoisonAndDrain();
        return None, SelectedOutsideVocabulary;
      }
      ghost var before := history;
      history := history + [selected.value];
      results := results + [selected.value];
      Extended(before, selected.value);
    }

    lemma DecodeExtends(a: nat, tokens: seq<nat>, token: nat)
      ensures DecodeWork(layers, a, tokens + [token]) == DecodeWork(layers, a, tokens) + ForwardWork(layers, a + |tokens|, [token])
    {
      hide ForwardWork;
      assert (tokens + [token])[..|tokens|] == tokens;
    }

    // The results move out of the session.
    method Finish(reason: StopReason) returns (r: Generation)
      modifies this`results
      ensures r == Generated(old(results), reason) && results == []
    {
      r := Generated(results, reason);
      results := [];
    }

    // A committed token extends the history past the published rows.
    lemma Extended(before: seq<nat>, token: nat)
      requires Published(before, |before|)
      ensures Published(before + [token], |before|)
    {
    }
  }
}

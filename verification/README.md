# Verified model of an LLM inference engine

The repository is a C++ engine that runs TinyLlama models: a byte-pair-encoding tokenizer, a chat
template compiler, strided tensor views over tiled storage, an asynchronous operation queue shared by
many threads, a generation session with a key/value cache, allocators, and a safetensors reader. This
project models the logic of those parts in Dafny and proves what they promise.

| part | files | what is shown |
|---|---|---|
| tokenizer | `Utf8`, `Bpe`, `Tokenizer`, `Encoder`, `Decoder`, `RoundTrip`, `RoundTripExample` | the heap-and-linked-list merge refines the naive merge; encoding never fails internally; decoding undoes encoding, with the exact condition |
| admission queue | `AdmissionQueue`, `AdmissionProtocol`, `AdmissionInvariants`, `AdmissionSafety`, `AdmissionProperties`, `AdmissionOrder`, `AdmissionWait`, `AdmissionAccounting`, `AdmissionLifecycle`, `AdmissionSerial`, `AdmissionFindings`, `AdmissionCalls` | safety of every interleaving, and the exact steps that lose a submission, issue a token twice or make `wait` wrong |
| chat templates | `ChatLexer`, `ChatExpression`, `ChatGrammar`, `ChatTemplate`, `ChatBlocks`, `ChatCompiler`, `ChatSupport`, `TemplateCompiler`, `ChatFormatter`, `ChatSource`, `ChatSpelling`, `ChatRoundTrip` | exactly which templates are read and supported; the compiled form formats what an interpreter of the template renders |
| tensor views | `MixedRadix`, `TensorView`, `TiledLayout`, `ViewAdmission`, `Binary` | views stay injective and inside their owner; admission and in-place evaluation are sound |
| session | `Session` | which cache rows are read and published, which tokens generation returns, and why it stops |
| allocator | `ListAllocator` | the free list is the list of maximal gaps |
| safetensors | `SafeTensors` | the sweep accepts exactly the partitions |

## How to read it

Code that changes state is a class whose methods are proved against functions on a snapshot of the
fields, or against the property itself; theorems over many calls or runs are lemmas about those
functions. In the admission protocol every lock region, and every outcome of a closure that runs
between two regions, is one event of a state machine over any number of threads; dispatch, completion
and failures come from the environment in any order. In the session every device step may be rejected,
fail or succeed: class `Session.Environment` is the device queue and the selector, whose answers are
arbitrary and recorded, so that contracts can say which work was submitted, what was waited on and what
the selector returned. That attention only reads rows appended for the current request and context is the
precondition of `Session.TinyLlamaSession.Sdpa` (src/session.cpp:2478-2488), which the verifier checks
where a layer calls it. Strings of the chat code and texts of the tokenizer are sequences of bytes.

## What the proofs found

- Decoding undoes encoding only if U+2581 is itself a vocabulary piece, since otherwise the prepended boundary
  falls back to bytes, which the decoder does not turn into a space, and only if the text does not contain
  U+2581, which the decoder does turn into one. `RoundTrip.DecodeUndoesEncode` is
  an if-and-only-if with these conditions, and `RoundTripExample.LetterRoundTrip` has a validated table on
  each side of it.
- A pump that already failed and gave its own sequence back keeps pumping with the same
  `synchronous_sequence`. If another submitter is handed that sequence meanwhile and its dispatch throws,
  the pump takes the failure for its own, erases the node and gives the sequence back
  (src/device_ops.cpp:381-418). The queue itself survives such a theft: `AdmissionSafety.StepPreserves`
  and everything that follows from it hold in every run. `AdmissionAccounting.AccountedRuns` shows that
  accepted submissions stay accounted for exactly in the runs without a theft, and
  `AdmissionAccounting.IssuedRuns` that an accepted sequence can be handed out again exactly when a thief
  rewinds the counter; `AdmissionAccounting.RewoundIsReissued` and `AdmissionFindings.TokenIssuedTwice`
  show two submissions returning one token. Callers avoid thefts by not overlapping submit calls
  (`AdmissionSerial.SerialTheftless`).
- A dispatch that throws in somebody else's pump completes its sequence at once, which can pass an
  earlier sequence that still executes; `wait` on the earlier one then returns
  (`AdmissionFindings.WaitReturnsEarly`). For serial submitters `AdmissionSerial.WaitIsExact` shows that
  `wait` is exact throughout a run if and only if every completion completes the oldest node.
- `format` returns the empty string for an empty message list by decree; `ChatFormatter.EmptyListAgrees`
  says exactly when the template agrees, and `ChatFormatter.EmptyListDiffers` has one that does not.

## Model

| member | source | states |
|---|---|---|
| `Utf8.FirstScalarUnique` | src/tokenizer.cpp:971-1052 | the encoding of section 3 of RFC 3629 is prefix-free: a text starts with the encoding of at most one scalar value |
| `Utf8.AcceptancesAgree` | src/tokenizer.cpp:971-1052 | the second-byte tables and the decode-then-range-check form accept exactly the same leading sequences, those that start with an encoded scalar value |
| `Utf8.ValidateEncode` | src/tokenizer.cpp:971-1052 | the table-driven validator accepts a byte string if and only if it is the concatenation of encoded Unicode scalar values |
| `Utf8.ValidateContent` | src/chat_format.cpp:380-428 | the arithmetic validator of message contents accepts exactly the same set |
| `Utf8.ValidateTemplate` | src/chat_format.cpp:307-353 | the template validator accepts that set without the strings holding a CR byte |
| `Bpe.NextMerge` | src/tokenizer.cpp:1208-1306 | the reference step: the mergeable position of lowest rank, leftmost on ties, or none exactly when no adjacent pair has a merge row |
| `Bpe.NaiveIsFinal` | src/tokenizer.cpp:1208-1306 | the repeated reference merge ends in a list without any mergeable adjacent pair |
| `Bpe.CurrentMinimumIsNext` | src/tokenizer.cpp:1263-1277 | an entry that is minimal in the heap and passes the staleness test names the very pair the reference merges next |
| `Bpe.StaleIsNotNeeded` | src/tokenizer.cpp:1266-1277 | discarding an entry that fails the staleness test loses no live mergeable pair |
| `Bpe.EmptyHeapMeansDone` | src/tokenizer.cpp:1263-1265 | an empty heap means the live list is already what the reference ends with |
| `Bpe.MergeMatchesReference` | src/tokenizer.cpp:1288-1302 | one linked-list merge leaves a consistent chain whose ids are those of one reference merge |
| `Bpe.MergeKeepsHeap` | src/tokenizer.cpp:1288-1304 | after a merge only the two pairs next to the merged node can be missing from the heap |
| `Bpe.WalkReadsLive` | src/tokenizer.cpp:1318-1330 | reading along next from node 0 yields exactly the live nodes in order |
| `Bpe.SymbolList.QueuePair` | src/tokenizer.cpp:1226-1257 | queues a live adjacent mergeable pair with current generations, and reports which of the source's errors the state calls for |
| `Bpe.SymbolList.MergeNodes` | src/tokenizer.cpp:1288-1302 | the node updates of one merge, equal to the merge on the snapshot at every index |
| `Bpe.SymbolList.RequeueAround` | src/tokenizer.cpp:1303-1304 | the two requeues after a merge make the heap complete again, within the push limit |
| `Bpe.SymbolList.PopAndMerge` | src/tokenizer.cpp:1263-1305 | one round of the loop keeps heap soundness, heap completeness, links and the push bound, and makes progress |
| `Bpe.SymbolList.DrainQueue` | src/tokenizer.cpp:1263-1305 | the loop terminates without any error and leaves the reference result |
| `Bpe.SymbolList.ApplyMerges` | src/tokenizer.cpp:1208-1306 | for every symbol list and validated table the heap-and-linked-list merge terminates; its surviving ids along next equal the reference algorithm; the only error is the size check 3n, and pushes never exceed 3n |
| `Tokenizer.NormalizeSpan` | src/tokenizer.cpp:1143-1170 | the two-pass normaliser returns the prepended and space-replaced text |
| `Tokenizer.NormalizeIsPointwise` | src/tokenizer.cpp:1143-1170 | normalising the bytes of a valid text is normalising its scalar values one by one, so spans stay valid UTF-8 on scalar boundaries |
| `Tokenizer.LeadGivesScalar` | src/tokenizer.cpp:1120-1141 | the length read off a lead byte is the length of the first encoded scalar of a valid text |
| `Tokenizer.AppendInitialSymbols` | src/tokenizer.cpp:1172-1206 | the symbol loop yields the vocabulary id of every scalar, or its byte-fallback ids, and never the internal errors |
| `Tokenizer.SymbolsUsePieces` | src/tokenizer.cpp:1172-1206 | scalars that are vocabulary pieces get one symbol each, that piece; only the others are spelled in bytes |
| `Tokenizer.BytePieceSpelled` | src/tokenizer.cpp:1172-1206 | a byte's fallback piece is spelled with its two upper-case hexadecimal digits |
| `Encoder.NormalizedPoints` | src/tokenizer.cpp:1143-1170 | the normalised text is valid and has the boundary scalar followed by the mapped scalars |
| `Encoder.SplitAtAscii` | src/tokenizer.cpp:1391-1398 | a valid text cut in front of an ASCII byte gives two valid texts |
| `Encoder.MatchAt` | src/tokenizer.cpp:1375-1386 | a literal is found at an offset exactly when one of the three added tokens stands there, and it is the longest one; `Encoder.MatchSpells` says which id it gets |
| `Encoder.MatchSpells` | src/tokenizer.cpp:1375-1394 | over a validated table the id of a found literal is that of the piece it spells |
| `Encoder.FindLiteral` | src/tokenizer.cpp:1375-1386 | the loop over the added tokens finds that longest literal |
| `Encoder.AppendPlainSpan` | src/tokenizer.cpp:1308-1331 | a plain span appends the reference encoding; the traversal errors never occur |
| `Encoder.CutLiteral` | src/tokenizer.cpp:1391-1396 | cutting one literal keeps the encoding of the rest of the text unchanged |
| `Encoder.EncodeText` | src/tokenizer.cpp:1333-1400 | encode rejects exactly the invalid UTF-8 texts, never reaches an internal error, and otherwise returns the reference encoding with the optional BOS; `RoundTrip.EncodedTexts` says what those ids spell, literals included |
| `Decoder.FindBoundary` | src/tokenizer.cpp:894-904 | finds the first occurrence of the replacement pattern, or none when there is none |
| `Decoder.AppendDecodedPiece` | src/tokenizer.cpp:880-905 | appends the byte of a byte piece, or the piece with every boundary replaced left to right |
| `Decoder.DecodeText` | src/tokenizer.cpp:1517-1565 | decode fails exactly when an id is unknown, and otherwise concatenates the decoded pieces and strips one leading space |
| `Decoder.ReplaceDistributes` | src/tokenizer.cpp:894-904 | on valid texts the replacement works scalar by scalar, so it distributes over concatenation |
| `RoundTrip.MergeConserves` | src/tokenizer.cpp:1288-1302 | one merge changes neither the concatenated piece text nor the decoded text when no merge touches byte pieces |
| `RoundTrip.NaiveConserves` | src/tokenizer.cpp:1208-1306 | merging to the end conserves both texts |
| `RoundTrip.SymbolsTexts` | src/tokenizer.cpp:1172-1206 | byte fallback is undone byte by byte: the initial symbols decode to the normalised text |
| `RoundTrip.PlainSpanTexts` | src/tokenizer.cpp:1308-1331 | the encoding of a plain span spells the normalised text; decoding shows the space-prefixed original exactly when U+2581 is a vocabulary piece |
| `RoundTrip.NoSpecialIds` | src/tokenizer.cpp:907-909 | a text without added-token literals is never encoded to an id that decoding skips |
| `RoundTrip.LiteralTexts` | src/tokenizer.cpp:1391-1396 | the id of a literal spells the literal, and decoding shows it unless special ids are skipped |
| `RoundTrip.EncodedTexts` | src/tokenizer.cpp:1333-1400 | for every valid text, added-token literals included, the ids spell the literals and the normalised spans between them, and decode to the spans as shown and the literals unless skipped |
| `RoundTrip.DecodeUndoesEncode` | src/tokenizer.cpp:1517-1565 | decode(encode(t)) == t for valid t without literals and tables without byte merges, if and only if an added BOS is skipped again and, for nonempty t, U+2581 is a vocabulary piece and does not occur in t |
| `RoundTripExample.LetterRoundTrip` | src/tokenizer.cpp:649-760 | two tables of 32000 pieces that validation accepts: with the one that has U+2581 the text a comes back, with the other one it does not |
| `MixedRadix.UnrankInBox` | src/tensor_view.cpp:32-44 | row-major numbering of a box of coordinates is a bijection |
| `MixedRadix.RowIndexLexicographic` | src/tensor_view.cpp:32-44 | the row-major number orders coordinates lexicographically: the first differing axis decides |
| `MixedRadix.DotPermuted` | src/tensor_view.cpp:163-193 | permuting coordinates and strides alike keeps the addressed plane |
| `TensorView.DensePlaneStrides` | src/tensor_view.cpp:32-44 | the backward loop returns the row-major strides, and overflows exactly when the largest of them does not fit |
| `TensorView.SliceSelects` | src/tensor_view.cpp:99-131 | a slice has the requested extent on its axis, and its coordinate c reads the plane that v reads at first + c * step |
| `TensorView.SliceAccepts` | src/tensor_view.cpp:99-131 | in an owner whose planes can be counted, a slice is refused exactly for its axis, count, step or extent, or for a stride that does not fit |
| `TensorView.SelectSelects` | src/tensor_view.cpp:133-161 | a selection drops its axis and reads the planes that v reads with the index in its place |
| `TensorView.SelectAccepts` | src/tensor_view.cpp:133-161 | in such an owner a selection is refused exactly when its axis or index is out of range |
| `TensorView.PermuteSelects` | src/tensor_view.cpp:163-193 | axis i of the permuted view is axis order[i] of v: the permuted coordinates read the plane that the scattered ones read in v |
| `TensorView.EmbeddingSound` | src/tensor_view.cpp:99-161 | a view seen through an injective coordinate embedding stays injective and in range |
| `TensorView.PermuteView` | src/tensor_view.cpp:163-193 | accepts exactly the permutations of the leading axes and returns the reordered view |
| `TensorView.CheckContiguous` | src/tensor_view.cpp:226-239 | the backward scan accepts exactly the views whose moving axes have row-major strides, whatever strides size-one axes carry |
| `TensorView.ReshapeView` | src/tensor_view.cpp:195-256 | accepts exactly the requested shapes with the same plane count over a contiguous view |
| `TensorView.ReshapeEnumeration` | src/tensor_view.cpp:195-256 | reshape keeps the row-major enumeration of planes: two coordinates select the same plane exactly when their row-major indices agree |
| `TensorView.SourceAll` | src/tensor_view.cpp:99-256 | every coordinate of a view that a chain of transforms reaches reads the plane of the coordinate of the first view that tracing the chain back gives |
| `TensorView.ChainSound` | src/tensor_view.cpp:99-256 | every chain of slice, select, permute and reshape keeps distinct coordinates on distinct planes |
| `TensorView.ReachedViewAddressesOwner` | src/tensor_view.cpp:99-256 | a view reached from an owner's full view by any chain maps distinct coordinates to distinct owner planes, all below the owner's plane count |
| `TensorView.SelectedPlanesCount` | src/tensor_view.cpp:99-256 | an injective view into n planes selects at most n of them |
| `TiledLayout.SlotInjective` | src/tensor.cpp:136-164 | the 16x16 tile map is injective over planes, rows and columns |
| `TiledLayout.LeafWidths` | src/tensor.cpp:95-102 | the width of every leaf type, from its sign, exponent and mantissa bits or by doubling |
| `TiledLayout.SlotSteps` | src/tensor.cpp:136-164 | elements are row-major within a 16x16 tile, tiles row-major within a plane, and planes follow one another |
| `TiledLayout.SlotWithinStorage` | src/tensor.cpp:76-102 | every slot lies within the padded storage |
| `TiledLayout.LastSlot` | src/tensor.cpp:136-164 | the last row and column of the highest plane hold the largest slot |
| `TiledLayout.CheckedSlotValue` | src/tensor.cpp:136-164 | the checked computation returns the slot whenever it returns |
| `TiledLayout.CheckedSlotSucceeds` | src/tensor.cpp:136-164 | and it does return whenever the slot is representable |
| `ViewAdmission.StorageBytes` | src/tensor.cpp:95-102 | the checked storage size is the padded bit count rounded up, failing only when a size does not fit |
| `ViewAdmission.HighestPlane` | src/device_ops.cpp:155-175 | the accumulator computes the maximum plane and rejects zero strides |
| `ViewAdmission.MaxPlaneIsExact` | src/device_ops.cpp:155-175 | max_plane is attained and never exceeded by any coordinate |
| `ViewAdmission.ValidateCheckedView` | src/device_ops.cpp:114-205 | an accepted view satisfies the geometric conditions and its facts are the exact maxima and sizes; a view that satisfies them over a validly sized owner is accepted |
| `ViewAdmission.AdmittedAddressesOwner` | src/device_ops.cpp:155-205 | every element of an accepted view addresses only bits of its owner |
| `ViewAdmission.ReachedViewIsAdmissible` | src/device_ops.cpp:155-205 | every view that transforms reach from an owner passes the geometric conditions |
| `ViewAdmission.ReachedSlotsDistinct` | src/tensor.cpp:136-193 | distinct (coordinates, row, column) of a reached view are distinct owner slots |
| `Binary.SnapshotView` | src/device_ops_binary.cpp:61-100 | the snapshot loop fills the broadcast strides of the operand against the result shape |
| `Binary.SnapshotSelectsBroadcast` | src/device_ops_binary.cpp:61-100 | for every output coordinate the broadcast strides select the slot that right-aligned broadcasting selects |
| `Binary.ComputeShape` | src/device_ops_binary.cpp:121-148 | the result-shape loop returns the broadcast shape exactly when the operands are compatible |
| `Binary.BroadcastIsLeast` | src/device_ops_binary.cpp:121-148 | shapes are compatible exactly when both fit some result of the larger rank, and the broadcast shape is the least such result |
| `Binary.ValidateBinary` | src/device_ops_binary.cpp:102-181 | rejects exactly the operand triples whose data types differ, whose broadcast shape is not the output's, or whose inputs on the output's owner are not exact aliases; reports an unsupported leaf type for the operation exactly on the others without support |
| `Binary.AliasIsSameOperand` | src/device_ops_binary.cpp:152-169 | an input counts as an exact alias of the output if and only if it is the same view of the same owner |
| `Binary.AliasReadsOwnSlot` | src/device_ops_binary.cpp:152-169 | an admitted input on the output's owner reads, at every position, the slot that position writes |
| `Binary.OutputSlotsDistinct` | src/device_ops_binary.cpp:149-169 | an injective output view writes distinct slots at distinct positions |
| `Binary.InPlaceIsSimultaneous` | src/device_ops_binary.cpp:152-169 | evaluating the positions one after the other, in any order and in place, equals reading all inputs first |
| `AdmissionQueue.TokenRoundTrip` | src/device_ops.cpp:531-547 | a token is a positive 63-bit value from which wait reads back the queue and the sequence |
| `AdmissionQueue.RemoveFirstAt` | src/device_ops.cpp:605-613 | find-and-erase removes the first occurrence and nothing else |
| `AdmissionQueue.DeviceOps.PickNode` | src/device_ops.cpp:330-361 | the pick region, whose scanning loop equals the specification scan; the flag falls exactly when no node is handed out |
| `AdmissionQueue.DeviceOps.TakeFailedNode` | src/device_ops.cpp:387-408 | the failure region: erases the submitter's own node, or only takes another node's rollback |
| `AdmissionQueue.DeviceOps.CompleteSequence` | src/device_ops.cpp:579-619 | the completion region with its four outcomes, retained failure, credit and order; `AdmissionWait.CompletionReported` says what wait makes of each |
| `AdmissionInvariants.PickQueue` | src/device_ops.cpp:330-361 | a pick takes the first node that is not executing, extending the executing prefix by one |
| `AdmissionInvariants.EraseQueue` | src/device_ops.cpp:602-613 | erasing any node with its credit keeps the order distinct and the executing nodes a prefix |
| `AdmissionInvariants.AbandonData` | src/device_ops.cpp:310-318 | giving back a free sequence, by rewinding or skipping, disturbs no other submission |
| `AdmissionInvariants.RejectData` | src/device_ops.cpp:381-418 | a throw that the submitter takes for its own, rightly or not, erases the node, runs the rollback of the node's submission once and keeps every record consistent |
| `AdmissionSafety.NestedPumpReturns` | src/device_ops.cpp:319-325 | the pump called from a completion inside a pump always returns at once |
| `AdmissionSafety.StepPreserves` | src/device_ops.cpp:263-421 | every event of every thread keeps the invariant: the order lists exactly the nodes, the executing ones are its prefix and hold the credits, at most one thread pumps, sequences outside the queue are free and distinct, rollbacks run at most once |
| `AdmissionProperties.ReachableInv` | src/device_ops.cpp:263-421 | the invariant holds after every interleaving, for any number of threads and any capacity |
| `AdmissionProperties.CreditsCountExecuting` | include/iom/iom.hpp:1793-1823 | in every run credits equal the number of executing nodes and never exceed the capacity |
| `AdmissionAccounting.AccountedUnlessStolen` | src/device_ops.cpp:381-418 | a step loses an accepted submission, which then has neither its node nor completed, if and only if it is a theft: a pump that already gave its own sequence back takes another submission's throw for its own |
| `AdmissionAccounting.AccountedRuns` | src/device_ops.cpp:381-418 | over whole runs no accepted submission is ever lost if and only if no step is a theft |
| `AdmissionAccounting.IssuedRuns` | src/device_ops.cpp:310-318 | along a run every accepted submission's sequence stays below the counter, so that nobody else is handed it, if and only if no pump gives a stolen sequence back to the counter |
| `AdmissionAccounting.TokensDistinct` | src/device_ops.cpp:263-318 | in exactly those runs returned tokens are pairwise distinct, although sequences are rewound and reused |
| `AdmissionAccounting.RewoundIsReissued` | src/device_ops.cpp:263-318 | after such a rewind the next submission of an idle thread to an open queue returns the sequence of another accepted submission |
| `AdmissionAccounting.TheftlessUnrewound` | src/device_ops.cpp:310-318 | a run without thefts gives no stolen sequence back |
| `AdmissionAccounting.WaitKnowsAccepted` | src/device_ops.cpp:536-560 | without thefts wait takes every token of an accepted submission; in every run it refuses the sequences that were never handed out or were skipped |
| `AdmissionProperties.SkippedNotReissued` | src/device_ops.cpp:310-318 | in every run a skipped sequence is handed out to no later submission |
| `AdmissionAccounting.SkippedNeverIssued` | src/device_ops.cpp:310-318 | without thefts a skipped sequence is never that of an accepted submission, then or at any later point |
| `AdmissionProperties.RollbacksRun` | src/device_ops.cpp:298-307 | in every run a submission that threw ran its rollback exactly once unless it had completed itself, and no submission runs it twice |
| `AdmissionProperties.FinishedStays` | src/device_ops.cpp:304-308 | a returned token, and a thrown submission, stay what they are at every later step |
| `AdmissionLifecycle.ReservedIsFresh` | src/device_ops.cpp:263-282 | in every run a sequence that is handed out carries nothing of an earlier use: wait blocks on it, and no node, failure or committed failure exists for it |
| `AdmissionLifecycle.ClosedFreezes` | src/device_ops.cpp:263-361 | once the queue is closing it stays so, and no event takes a new submission, publishes a node or dispatches one |
| `AdmissionOrder.DispatchesInOrder` | src/device_ops.cpp:327-380 | in every run dispatches that were not taken back by parking happen in publication order, even when heads park and are retried |
| `AdmissionWait.NoLostWakeup` | src/device_ops.cpp:322-351 | in every run: when nobody pumps or owes a pump, the queue is open and the last pump did not stop for want of a resource, all credits are in use or every node is executing |
| `AdmissionWait.FailureIsPermanent` | src/device_ops.cpp:536-578 | in every run a wait that threw a retained failure throws the same one on every later wait |
| `AdmissionWait.CompletionReported` | src/device_ops.cpp:579-619 | in every run, what wait does on a sequence right after an event completes it, from outside or by a throw: it throws that event's failure, otherwise the committed one, otherwise it returns |
| `AdmissionWait.CompletedNeverBlocks` | src/device_ops.cpp:536-578 | in every run wait never blocks on a completed sequence, and throws exactly when a failure is retained for it |
| `AdmissionWait.LateFailureReported` | src/device_ops.cpp:571-578 | a failure found after the completion is what wait throws from then on, unless one was retained before |
| `AdmissionWait.CommittedFailureReported` | src/device_ops.cpp:653-674 | a failure committed for a sequence in the queue stays committed whatever happens to other sequences, and is what wait throws once that sequence completes without a failure of its own |
| `AdmissionSerial.SerialTheftless` | src/device_ops.cpp:263-318 | when no two submit calls overlap, no run contains a theft |
| `AdmissionSerial.AdmissionOrderIncreases` | src/device_ops.cpp:283-298 | with serial submitters the admission order is strictly increasing |
| `AdmissionSerial.AbandonRewinds` | src/device_ops.cpp:310-318 | with serial submitters giving a sequence back always rewinds the counter |
| `AdmissionSerial.WaitIsExact` | src/device_ops.cpp:536-568 | in a run of serial submitters wait blocks exactly while a sequence is queued and then throws its retained failure or returns, for every sequence and throughout the run, if and only if every completion of a node, from outside or from the pump, completes the oldest one |
| `AdmissionCalls.PumpAdmission` | src/device_ops.cpp:319-421 | the pump loop on the queue's fields, for any outcomes of the dispatched closures, terminates and is a run of the protocol; it reports a failure exactly when its submission ends up thrown |
| `AdmissionCalls.SubmitPrepared` | src/device_ops.cpp:263-309 | an uninterrupted submit call is a run of the protocol; it returns the token of its own returned submission, or throws with the submission thrown |
| `AdmissionCalls.CompleteAndPump` | src/device_ops.cpp:579-621 | an uninterrupted completion and the pump it starts are a run of the protocol |
| `AdmissionFindings.TokenIssuedTwice` | src/device_ops.cpp:381-418 | a concrete run of three overlapping submitters in which two submissions return the same token |
| `AdmissionFindings.WaitReturnsEarly` | src/device_ops.cpp:381-418 | a concrete run with serial submitters and external completions in order in which wait returns while its sequence still executes |
| `ListAllocator.AlignUpIsLeast` | src/alloc.cpp:69-75 | the aligned address is the least multiple not below the given one |
| `ListAllocator.GapListUnique` | src/alloc.cpp:227-254 | a sorted list of maximal runs is determined by the bytes it covers |
| `ListAllocator.RangeInOneBlock` | src/alloc.cpp:227-254 | a covered byte range lies in a single maximal run |
| `ListAllocator.Coalesce` | src/alloc.cpp:239-254 | in-place compaction returns the maximal runs of the same bytes, with the same total |
| `ListAllocator.InsertFreeBlock` | src/alloc.cpp:227-237 | the binary search inserts a disjoint block in order |
| `ListAllocator.FreeListIsCanonical` | src/alloc.cpp:105-254 | the free list is a function of the live allocations: the sorted maximal gaps they leave |
| `ListAllocator.AllFreed` | src/alloc.cpp:181-207 | freeing all live blocks in any order restores the single initial block |
| `ListAllocator.FreeRangeFits` | src/alloc.cpp:110-142 | a free aligned range anywhere in the buffer makes some block of the free list fit |
| `ListAllocator.ListAllocator.Make` | src/alloc.cpp:12-43 | the four setup errors in order, and the clamped aligned begin |
| `ListAllocator.ListAllocator.FindBest` | src/alloc.cpp:110-138 | the scan finds the leftmost fitting block with least waste, or meets the alignment overflow exactly when a block address cannot be aligned |
| `ListAllocator.ListAllocator.Plan` | src/alloc.cpp:105-179 | the outcome of a request before anything changes: each failure exactly when its condition holds, otherwise a best-fit aligned free range and the free list of the gaps that remain |
| `ListAllocator.ListAllocator.Alloc` | src/alloc.cpp:105-179 | fails with bad_alloc if and only if no aligned free range of that size exists; otherwise returns an aligned free range of the best-fit gap and adds exactly it to the live allocations |
| `ListAllocator.ListAllocator.Free` | src/alloc.cpp:181-207 | releases exactly the live pointers, leaves everything else alone, and keeps the free list the maximal gaps |
| `ListAllocator.ListAllocator.Reset` | src/alloc.cpp:209-217 | one block over the whole capacity |
| `ListAllocator.ListAllocator.FreeBytes` | src/alloc.cpp:219-225 | free and live bytes add up to the capacity |
| `SafeTensors.ExpectedPayloadBytes` | src/safetensors.cpp:82-94 | the shape's bit product rounded up to bytes; overflow exactly when a running product or the bit count leaves the word |
| `SafeTensors.SweepDecides` | src/safetensors.cpp:197-213 | on sorted records the cursor sweep succeeds if and only if every data byte is in exactly one record and no empty record lies strictly inside another |
| `SafeTensors.PartitionIgnoresOrder` | src/safetensors.cpp:190-196 | that property does not depend on the order in which records are listed |
| `SafeTensors.PhysicalOrder` | src/safetensors.cpp:190-196 | a permutation of the indices that sorts the records by begin and end |
| `SafeTensors.CheckRecord` | src/safetensors.cpp:171-185 | a record passes exactly when it is in range and as long as its shape says |
| `SafeTensors.Check` | src/safetensors.cpp:146-213 | a record list is accepted if and only if every record is well formed and together they partition the data |
| `ChatLexer.FindTagEnd` | src/chat_format.cpp:431-458 | the first closing delimiter outside string literals |
| `ChatLexer.LexIsLossless` | src/chat_format.cpp:460-517 | the tokens with their delimiters spell the template: lexing loses nothing |
| `ChatLexer.TrimMeans` | src/chat_format.cpp:519-554 | trimming changes texts only: in front of a block a text loses its last line when that holds only blanks, keeping the line break before it; behind a block it then loses one leading line break; nothing else changes |
| `ChatSource.LexReads` | src/chat_format.cpp:460-517 | a source spelled from texts, outputs and blocks, with any string literals in them, is lexed as exactly those tokens |
| `ChatSource.CommentRefused` | src/chat_format.cpp:475-481 | a comment tag is rejected |
| `ChatSource.MinusRefused` | src/chat_format.cpp:499-511 | a tag whose text starts or ends with a minus sign is rejected |
| `ChatLexer.TrimBlocks` | src/chat_format.cpp:519-554 | the two in-place passes give the trimmed token list whose texts `ChatLexer.TrimMeans` describes |
| `ChatLexer.TokenizeTemplate` | src/chat_format.cpp:460-555 | the lexing loop and the trimming give the specified trimmed token list, or the rejection; `ChatSource.LexReads` and `ChatLexer.TrimMeans` say which tokens those are |
| `ChatExpression.QuotedReadsBack` | src/chat_format.cpp:611-646 | every string has a literal, in either kind of quotes, that the parser reads back |
| `ChatExpression.ExpressionParser.ParseString` | src/chat_format.cpp:611-646 | the scanner reads one literal with its escapes and stops after the closing quote |
| `ChatExpression.ExpressionParser.ParseReference` | src/chat_format.cpp:648-670 | message.field or message['field'], and nothing else |
| `ChatExpression.ParseRoleCondition` | src/chat_format.cpp:769-790 | the scanner-based parser returns the role that the grammar from a position gives, which `ChatGrammar.RoleConditionExact` describes by lexemes |
| `ChatExpression.IsGenerationCondition` | src/chat_format.cpp:792-809 | accepts, declines or rejects a condition as the grammar from a position says, which `ChatGrammar.GenerationConditionExact` describes by lexemes |
| `ChatExpression.ParseOutput` | src/chat_format.cpp:811-850 | the operands of a concatenation in order, or a rejection; `ChatGrammar.OutputExact` describes them by lexemes |
| `ChatGrammar.RoleConditionExact` | src/chat_format.cpp:769-790 | a text is a condition on a role if and only if it consists, blanks aside, of if or elif, the role field in either notation, ==, and a literal that denotes the role's name |
| `ChatGrammar.GenerationConditionExact` | src/chat_format.cpp:792-809 | a text asks for the generation prompt if and only if it consists of the lexemes of if loop.last and add_generation_prompt, and is left to the other parser if and only if it starts with another word, or with if and another word than loop |
| `ChatGrammar.OutputExact` | src/chat_format.cpp:811-850 | a text is an output if and only if it consists of literals, content fields in either notation and eos_token joined by plus signs, and its operands are those |
| `ChatGrammar.OnlyWordsExact` | src/chat_format.cpp:753-767 | a text is accepted as a list of words if and only if it consists of exactly those names |
| `ChatBlocks.ParseExact` | src/chat_format.cpp:973-1166 | a token list is read as a list of statements if and only if the grammar of loops, branches, outputs and texts derives it, with closed blocks and only those tags |
| `ChatTemplate.RenderConcat` | src/chat_format.cpp:1258-1328 | the interpreter renders statement lists piece by piece |
| `ChatCompiler.RoleAffixRenders` | src/chat_format.cpp:874-934 | a compiled role branch renders its two affixes around the content |
| `ChatCompiler.GenerationRenders` | src/chat_format.cpp:936-963 | a compiled generation branch is the text the branch renders |
| `ChatCompiler.SwitchRenders` | src/chat_format.cpp:1005-1073 | the role switch renders the affixes of the message's role, whatever the branch order |
| `ChatCompiler.LoopRenders` | src/chat_format.cpp:973-1166 | the message loop renders the formatted messages one after another |
| `ChatCompiler.CompiledRenders` | src/chat_format.cpp:973-1328 | for every supported template, message list and prompt flag, formatting with the compiled strings equals interpreting the template |
| `ChatSupport.RoleAccepts` | src/chat_format.cpp:874-934 | a role branch compiles if and only if it is whitespace around one output of literals with the content once and eos_token once behind it |
| `ChatSupport.SwitchAccepts` | src/chat_format.cpp:1005-1073 | a role switch compiles if and only if every role has exactly one branch and every branch is supported |
| `ChatSupport.CompileAccepts` | src/chat_format.cpp:973-1166 | a template is supported if and only if it is whitespace around one loop over a role switch, with at most one generation block, which stands behind the switch or behind the loop |
| `TemplateCompiler.RunParses` | src/chat_format.cpp:1168-1184 | a run of tokens without blocks parses token by token |
| `TemplateCompiler.SwitchStep` | src/chat_format.cpp:1007-1068 | one round of the branch loop agrees with the parsed role switch, in acceptance and in rejection |
| `TemplateCompiler.BodyStep` | src/chat_format.cpp:989-1098 | the scanned loop body is supported exactly when the parsed one is |
| `TemplateCompiler.TemplateStep` | src/chat_format.cpp:973-1166 | the scanned template is supported exactly when the parsed one is |
| `TemplateCompiler.TemplateCompiler.ReadSwitch` | src/chat_format.cpp:1005-1073 | the branch loop returns the affixes of the parsed switch, or rejects |
| `TemplateCompiler.TemplateCompiler.CompileRoleBranch` | src/chat_format.cpp:874-934 | compiles the tokens of a branch to its affixes, or rejects |
| `TemplateCompiler.TemplateCompiler.Compile` | src/chat_format.cpp:973-1166 | the index-scanning compiler accepts exactly the supported templates and returns what their statements compile to |
| `ChatFormatter.Load` | src/chat_format.cpp:1231-1238 | a source is accepted if and only if it is valid UTF-8 without CR, lexes, parses and is supported |
| `ChatFormatter.ChatFormatter.Measure` | src/chat_format.cpp:1265-1295 | the first pass returns the exact length of the output, the first bad role, or the overflow |
| `ChatFormatter.ChatFormatter.Append` | src/chat_format.cpp:1303-1328 | the second pass appends the formatted text |
| `ChatFormatter.ChatFormatter.Format` | src/chat_format.cpp:1258-1328 | the outcomes of format in the order they are checked; a formatted text is the specified one; an empty list gives the empty string |
| `ChatFormatter.FormatRendersTemplate` | src/chat_format.cpp:973-1328 | from source text to output: what format returns is what the template itself renders |
| `ChatSpelling.RoleRead` | src/chat_format.cpp:769-790 | a role condition is read back however its blanks, quotes and field access are chosen |
| `ChatSpelling.ReadTerms` | src/chat_format.cpp:811-850 | so is a concatenation, with any string in its literals |
| `ChatRoundTrip.SourceReadsBack` | src/chat_format.cpp:460-1166 | statements written out as a template, in any such style and with any blank lines and line breaks that trimming takes away, are what the template is read as |
| `ChatRoundTrip.SourceFormats` | src/chat_format.cpp:460-1328 | if they are supported, the template is accepted and formatting with it renders them |
| `ChatFormatter.EmptyListAgrees` | src/chat_format.cpp:1261-1263 | the empty string returned by decree for an empty list is what the template renders if and only if nothing stands around the loop |
| `ChatFormatter.EmptyListDiffers` | src/chat_format.cpp:1261-1263 | a supported template with a line break in front of the loop, which renders that line break for the empty list |
| `Session.LedgerBoundCovers` | src/session.cpp:135-145 | the accepted-token bound leaves room for the three recorded submissions of every run of a request |
| `Session.WrittenExtends` | src/session.cpp:2450-2453 | rows appended after a held prefix hold the longer context |
| `Session.TinyLlamaSession.DrainRequest` | src/session.cpp:856-882 | exactly the accepted submissions are waited on, in order and even after a failure; a failure, which only a device fault causes, poisons and keeps the ledger |
| `Session.TinyLlamaSession.Submit` | src/session.cpp:1510-1563 | one ledger entry per accepted submission; refusal, full ledger and rejection each exactly when their guard holds |
| `Session.TinyLlamaSession.PrepareForwardRequest` | src/session.cpp:3324-3407 | a replacement is published over empty prefixes, or the admitted request, its history and the cache prefixes stay as they were |
| `Session.TinyLlamaSession.AppendRows` | src/session.cpp:2446-2476 | both appends are attempted; success writes exactly the window of this request in both caches |
| `Session.TinyLlamaSession.RunLayer` | src/session.cpp:3211-3260 | rejects exactly the offsets that do not continue the prefix within capacity; on success the layer holds the whole context |
| `Session.TinyLlamaSession.RunLayers` | src/session.cpp:3445-3466 | after all layers succeeded they share one prefix, the whole context |
| `Session.TinyLlamaSession.ForwardPrefill` | src/session.cpp:3409-3522 | a successful prefill publishes the prompt in every layer; any other failure than a precondition poisons |
| `Session.TinyLlamaSession.ForwardDecode` | src/session.cpp:3524-3642 | a successful decode extends the shared prefix by the token; differing prefixes are never met |
| `Session.TinyLlamaSession.SelectNext` | src/session.cpp:1180-1213 | the selector is called once, after the producer was waited on, with the history whose rows all layers have published; what it returned is what is selected, and only an unknown producer or a fault can fail |
| `Session.TinyLlamaSession.CommitNext` | src/session.cpp:1250-1265 | the selected token, unchanged, is appended to the history and to the results; a token outside the vocabulary poisons |
| `Session.TinyLlamaSession.Round` | src/session.cpp:1250-1296 | one round of selection, commitment, stop test and decode keeps the loop's invariant or ends with the right outcome |
| `Session.TinyLlamaSession.GenerateFrom` | src/session.cpp:1250-1296 | the loop returns exactly the tokens that the selector returned, each for the prompt and the tokens before it, stops for the reason that has precedence, and never meets a capacity, prefix or ledger rejection |
| `Session.TinyLlamaSession.GenerateTokens` | src/session.cpp:1112-1311 | the tokens returned are those the selector returned, in order, each for the prompt and its predecessors; the device runs the prompt once and every token but the last; at most min(limit, capacity minus prompt) tokens, the stop reason is exactly EOS before limit before capacity; each failure exactly names its cause, and without a fault and a bad selection a valid request succeeds |

## Left out

- File reading, memory mapping, JSON parsing, configuration checks and error texts: parsed tables, records and templates are inputs, and an error is its kind.
- Numerical kernels, floating point, processor dispatch and GPU back ends: device operations are abstract steps.
- Inference metrics and observation hooks of the session: erased.
- `Tokenizer::encode_pair` and the size-counting first pass of decode: the same span encoder and piece decoder with one more concatenation or addition.
- The `fuse_unk` branch of the symbol loop: unreachable, since validated tables have every byte piece and byte fallback switched on.
- std::priority_queue is modelled by its contract: popping removes an entry that no other precedes.
- std::sort is modelled by an insertion sort with the same contract, a permutation in order.
- Device, owner and native-handle identity tests and the quantization tests of view and binary admission: only geometry, sizes, data types and owner identity are modelled.
- Admission checks of operations other than binary ones: straight-line tests, of which the session uses only the row window.
- `seek_next_sequence` and the leasing of queue ids.
- `close_and_drain` beyond the closing flag: its list of parked nodes is taken once, so a node parked later is not in it.
- Progress of the queue after a stop for want of a resource: the next retry belongs to the release path.
- Data races on `fence_through_sequence` and the condition variable itself: a wait is the look at the state that its predicate takes.
- Placement of the MLP members inside the planned workspace slice, and which admission failure the MLP stage keeps.
- Workspace and view contents of the session's stages: a stage is its submissions, waits and effect on cache rows.
- The public `prepare_request` with caller-supplied workspaces: same shape as the forward request, which is modelled.
- `append_checked` in the template compiler: a literal longer than the largest string cannot occur in a source that is itself a string.
- `LinearAllocator` and `FixedSizeAllocator`: a bump pointer and an index stack would add easy members.
- ViewAdmission.ValidateCheckedView: acceptance of an admissible view is stated for owners whose padded sizes fit the machine word, as those of constructed tensors do.
- RoundTrip.DecodeUndoesEncode: texts with an added-token literal are outside the promise (`RoundTrip.EncodedTexts` says what they decode to), and tables that merge byte pieces are outside the theorem.
- ChatRoundTrip.SourceReadsBack: one style of blanks, quotes and field access for a whole template (`ChatGrammar` and `ChatBlocks` cover mixed ones tag by tag), and texts without an opening brace, which lexing would split.

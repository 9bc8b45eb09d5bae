// When decoding undoes encoding.

module RoundTrip {
  import opened SizeT
  import opened Utf8
  import opened Bpe
  import opened Tokenizer
  import opened Encoder
  import opened Decoder

  // ---------------------------------------------------------------- what merging conserves

  // The bytes an id stands for before any replacement.
  function RawPiece(piece: Bytes): Bytes {
    match ParseBytePiece(piece)
    case Some(b) => [b]
    case None => piece
  }

  function RawText(v: Vocabulary, ids: seq<Id>): Bytes
    requires AllKnown(v, ids)
  {
    if ids == [] then [] else RawPiece(v.pieces[ids[0]]) + RawText(v, ids[1..])
  }

  // Every id is a byte piece or a piece of well-formed text.
  ghost predicate AllTextual(v: Vocabulary, ids: seq<Id>) {
    forall i :: 0 <= i < |ids| ==> ids[i] < |v.pieces| && (IsByteId(v, ids[i]) || WellFormed(v.pieces[ids[i]]))
  }

  lemma {:induction false} RawTextConcat(v: Vocabulary, a: seq<Id>, b: seq<Id>)
    requires AllKnown(v, a) && AllKnown(v, b)
    ensures RawText(v, a + b) == RawText(v, a) + RawText(v, b)
  {
    if a == [] {
      assert a + b == b;
    } else {
      assert (a + b)[1..] == a[1..] + b;
      RawTextConcat(v, a[1..], b);
      Associative(RawPiece(v.pieces[a[0]]), RawText(v, a[1..]), RawText(v, b));
    }
  }

  lemma {:induction false} DecodeConcat(v: Vocabulary, a: seq<Id>, b: seq<Id>, skip: bool)
    requires AllKnown(v, a) && AllKnown(v, b)
    ensures DecodeIds(v, a + b, skip) == DecodeIds(v, a, skip) + DecodeIds(v, b, skip)
  {
    hide DecodePiece;
    if a == [] {
      assert a + b == b;
    } else {
      assert (a + b)[1..] == a[1..] + b;
      DecodeConcat(v, a[1..], b, skip);
      var first := if Skipped(a[0], skip) then [] else DecodePiece(v.pieces[a[0]]);
      Associative(first, DecodeIds(v, a[1..], skip), DecodeIds(v, b, skip));
    }
  }

  lemma WellFormedConcat(a: Bytes, b: Bytes)
    requires WellFormed(a) && WellFormed(b)
    ensures WellFormed(a + b)
  {
    var x :| AllScalars(x) && EncodeAll(x) == a;
    EncodeAllConcat(x, b);
  }

  lemma {:induction false} EncodeAllConcat(x: seq<nat>, b: Bytes)
    requires AllScalars(x) && WellFormed(b)
    ensures WellFormed(EncodeAll(x) + b)
  {
    if x == [] {
      assert EncodeAll(x) + b == b;
    } else {
      EncodeAllConcat(x[1..], b);
      var s := EncodeAll(x) + b;
      Associative(Encode(x[0]), EncodeAll(x[1..]), b);
      SplitSuffix(s, 0, Encode(x[0]), EncodeAll(x[1..]) + b);
      WellFormedTail(s, x[0]);
    }
  }

  lemma SingleTexts(v: Vocabulary, x: Id)
    requires x < |v.pieces|
    ensures DecodeIds(v, [x], false) == DecodePiece(v.pieces[x])
    ensures RawText(v, [x]) == RawPiece(v.pieces[x])
  {
    hide DecodePiece, RawPiece;
    assert [x][1..] == [];
    assert DecodeIds(v, [x][1..], false) == [] && RawText(v, [x][1..]) == [];
  }

  lemma PairTexts(v: Vocabulary, x: Id, y: Id)
    requires x < |v.pieces| && y < |v.pieces|
    ensures DecodeIds(v, [x, y], false) == DecodePiece(v.pieces[x]) + DecodePiece(v.pieces[y])
    ensures RawText(v, [x, y]) == RawPiece(v.pieces[x]) + RawPiece(v.pieces[y])
  {
    hide DecodePiece, RawPiece;
    assert [x, y] == [x] + [y];
    SingleTexts(v, x);
    SingleTexts(v, y);
    DecodeConcat(v, [x], [y], false);
    RawTextConcat(v, [x], [y]);
  }

  // One merge keeps the ids textual and the decoded and raw texts unchanged.
  lemma MergeConserves(v: Vocabulary, ids: seq<Id>, i: nat)
    requires Validated(v) && NoByteMerges(v) && AllTextual(v, ids) && Mergeable(v.merges, ids, i)
    ensures AllTextual(v, MergeAt(v.merges, ids, i))
    ensures DecodeIds(v, MergeAt(v.merges, ids, i), false) == DecodeIds(v, ids, false)
    ensures RawText(v, MergeAt(v.merges, ids, i)) == RawText(v, ids)
  {
    hide WellFormed, ReplaceBoundary, ParseBytePiece;
    var pair := (ids[i], ids[i + 1]);
    assert pair in v.merges.results;
    assert MergeConcatenates(v, pair);
    var id := v.merges.results[pair];
    var a, b := ids[..i], ids[i + 2..];
    WellFormedConcat(v.pieces[ids[i]], v.pieces[ids[i + 1]]);
    ReplaceDistributes(v.pieces[ids[i]], v.pieces[ids[i + 1]]);
    assert ids == a + ([ids[i], ids[i + 1]] + b);
    assert MergeAt(v.merges, ids, i) == a + ([id] + b);
    PairTexts(v, ids[i], ids[i + 1]);
    SingleTexts(v, id);
    SameMiddle(v, a, [ids[i], ids[i + 1]], [id], b);
  }

  lemma SameMiddle(v: Vocabulary, a: seq<Id>, m: seq<Id>, m': seq<Id>, b: seq<Id>)
    requires AllKnown(v, a) && AllKnown(v, m) && AllKnown(v, m') && AllKnown(v, b)
    requires DecodeIds(v, m, false) == DecodeIds(v, m', false) && RawText(v, m) == RawText(v, m')
    ensures DecodeIds(v, a + (m + b), false) == DecodeIds(v, a + (m' + b), false)
    ensures RawText(v, a + (m + b)) == RawText(v, a + (m' + b))
  {
    DecodeConcat(v, a, m + b, false);
    DecodeConcat(v, a, m' + b, false);
    DecodeConcat(v, m, b, false);
    DecodeConcat(v, m', b, false);
    RawTextConcat(v, a, m + b);
    RawTextConcat(v, a, m' + b);
    RawTextConcat(v, m, b);
    RawTextConcat(v, m', b);
  }

  // So does merging to the end.
  lemma {:induction false} NaiveConserves(v: Vocabulary, ids: seq<Id>)
    requires Validated(v) && NoByteMerges(v) && AllTextual(v, ids)
    ensures AllTextual(v, Naive(v.merges, ids))
    ensures DecodeIds(v, Naive(v.merges, ids), false) == DecodeIds(v, ids, false)
    ensures RawText(v, Naive(v.merges, ids)) == RawText(v, ids)
    decreases |ids|
  {
    hide AllTextual, DecodeIds, RawText, NoByteMerges;
    var best := NextMerge(v.merges, ids, |ids|);
    if best.Some? {
      MergeConserves(v, ids, best.value);
      NaiveConserves(v, MergeAt(v.merges, ids, best.value));
    }
  }

  // ---------------------------------------------------------------- the initial symbols

  // What the symbols of cps decode to: U+2581 is shown as a space only when it is a vocabulary piece.
  ghost function Rendered(v: Vocabulary, cps: seq<nat>): Bytes
    requires AllScalars(cps)
  {
    if BOUNDARY in v.ids then Shown(cps) else EncodeAll(cps)
  }

  lemma {:induction false} ByteIdsTexts(v: Vocabulary, u: Bytes)
    requires Validated(v)
    ensures AllTextual(v, ByteIds(u))
    ensures DecodeIds(v, ByteIds(u), false) == u && RawText(v, ByteIds(u)) == u
  {
    forall i | 0 <= i < |u| ensures ByteIds(u)[i] < |v.pieces| && IsByteId(v, ByteIds(u)[i]) {
      assert BytePieceAt(v, u[i]);
      BytePieceParses(u[i]);
    }
    if u != [] {
      ByteIdsTexts(v, u[1..]);
      assert BytePieceAt(v, u[0]);
      BytePieceParses(u[0]);
      assert ByteIds(u)[1..] == ByteIds(u[1..]);
    }
  }

  lemma WellFormedScalar(cp: nat)
    requires IsScalar(cp)
    ensures WellFormed(Encode(cp))
  {
    assert [cp][1..] == [];
    assert EncodeAll([cp]) == Encode(cp) + [];
  }

  lemma ScalarTexts(v: Vocabulary, cp: nat)
    requires Validated(v) && IsScalar(cp)
    ensures AllTextual(v, SymbolsOfScalar(v, Encode(cp)))
    ensures RawText(v, SymbolsOfScalar(v, Encode(cp))) == Encode(cp)
    ensures DecodeIds(v, SymbolsOfScalar(v, Encode(cp)), false)
         == if BOUNDARY in v.ids then ShownScalar(cp) else Encode(cp)
  {
    var u := Encode(cp);
    assert Encode(BOUNDARY_POINT) == BOUNDARY;
    if u in v.ids {
      assert ParseBytePiece(u).None?;
      WellFormedScalar(cp);
      ReplaceScalar(cp, []);
      assert u + [] == u;
      SingleTexts(v, v.ids[u]);
    } else {
      ByteIdsTexts(v, u);
    }
  }

  lemma {:induction false} SymbolsTexts(v: Vocabulary, cps: seq<nat>)
    requires Validated(v) && AllScalars(cps)
    ensures AllTextual(v, SymbolsOf(v, cps))
    ensures RawText(v, SymbolsOf(v, cps)) == EncodeAll(cps)
    ensures DecodeIds(v, SymbolsOf(v, cps), false) == Rendered(v, cps)
  {
    hide Encode, ShownScalar, SymbolsOfScalar, Validated, DecodePiece, RawPiece;
    if cps != [] {
      SymbolsTexts(v, cps[1..]);
      ScalarTexts(v, cps[0]);
      DecodeConcat(v, SymbolsOfScalar(v, Encode(cps[0])), SymbolsOf(v, cps[1..]), false);
      RawTextConcat(v, SymbolsOfScalar(v, Encode(cps[0])), SymbolsOf(v, cps[1..]));
    }
  }

  // Spaces and U+2581 are shown alike.
  lemma {:induction false} ShownNormalized(cps: seq<nat>)
    requires AllScalars(cps)
    ensures Shown(NormalizePoints(cps)) == Shown(cps)
  {
    if cps != [] {
      ShownNormalized(cps[1..]);
      assert NormalizePoints(cps)[1..] == NormalizePoints(cps[1..]);
    }
  }

  lemma ShownPoints(t: Bytes)
    requires WellFormed(t)
    ensures Shown(Points(t)) == ReplaceBoundary(t)
  {
    ReplaceScalars(Points(t), []);
    assert t + [] == t;
  }

  // The decoded text of a plain span, before stripping.
  lemma PlainSpanTexts(v: Vocabulary, t: Bytes)
    requires Validated(v) && NoByteMerges(v) && WellFormed(t) && t != []
    ensures AllTextual(v, EncodePlain(v, t))
    ensures RawText(v, EncodePlain(v, t)) == Normalize(t)
    ensures DecodeIds(v, EncodePlain(v, t), false) == if BOUNDARY in v.ids then [SPACE] + ReplaceBoundary(t) else Normalize(t)
  {
    hide Points, Normalize, SymbolsOf, Naive, NormalizePoints, AllScalars, Shown, AllTextual, RawText, DecodeIds, NoByteMerges, Validated, ReplaceBoundary;
    NormalizedPoints(t);
    var cps := Points(t);
    var ncps := Points(Normalize(t));
    SymbolsTexts(v, ncps);
    NaiveConserves(v, SymbolsOf(v, ncps));
    ShownPoints(t);
    ShownNormalized(cps);
    ShownPrefix(NormalizePoints(cps));
  }

  lemma ShownPrefix(cps: seq<nat>)
    requires AllScalars(cps)
    ensures AllScalars([BOUNDARY_POINT] + cps)
    ensures Shown([BOUNDARY_POINT] + cps) == [SPACE] + Shown(cps)
  {
    assert ([BOUNDARY_POINT] + cps)[1..] == cps;
  }

  // ---------------------------------------------------------------- special ids

  ghost predicate NoLiteral(t: Bytes) {
    forall o :: 0 <= o < |t| ==> MatchAt(t, o).None?
  }

  ghost predicate Occurs(s: Bytes, w: Bytes) {
    exists p :: 0 <= p && LiteralAt(s, p, w)
  }

  lemma OccursAfter(a: Bytes, s: Bytes, w: Bytes)
    requires Occurs(s, w)
    ensures Occurs(a + s, w)
  {
    var p :| 0 <= p && LiteralAt(s, p, w);
    assert (a + s)[|a| + p..|a| + p + |w|] == s[p..p + |w|];
    assert LiteralAt(a + s, |a| + p, w);
  }

  lemma {:induction false} IdOccurs(v: Vocabulary, ids: seq<Id>, i: nat)
    requires AllKnown(v, ids) && i < |ids|
    ensures Occurs(RawText(v, ids), RawPiece(v.pieces[ids[i]]))
  {
    hide RawPiece;
    var head, rest := RawPiece(v.pieces[ids[0]]), RawText(v, ids[1..]);
    if i == 0 {
      assert (head + rest)[0..|head|] == head;
      assert LiteralAt(head + rest, 0, head);
    } else {
      IdOccurs(v, ids[1..], i - 1);
      OccursAfter(head, rest, RawPiece(v.pieces[ids[i]]));
    }
  }

  ghost predicate Plain(w: Bytes) {
    w != [] && SPACE !in w && forall i :: 0 <= i < |w| ==> w[i] < 0x80
  }

  lemma {:induction false} PlainPrefix(t: Bytes, w: Bytes)
    requires w == [] || Plain(w)
    requires w <= NormalizeBytes(t)
    ensures w <= t
  {
    if w != [] && t != [] {
      assert w[0] == NormalizeBytes(t)[0];
      assert w[1..] <= NormalizeBytes(t)[1..] == NormalizeBytes(t[1..]);
      PlainPrefix(t[1..], w[1..]);
      assert t == [t[0]] + t[1..] && w == [w[0]] + w[1..];
    }
  }

  lemma SliceBehind(a: Bytes, b: Bytes, p: nat, n: nat)
    requires |a| <= p && p + n <= |a| + |b|
    ensures (a + b)[p..p + n] == b[p - |a|..p - |a| + n]
  {
    var x, y := (a + b)[p..p + n], b[p - |a|..p - |a| + n];
    assert |x| == |y|;
    forall i | 0 <= i < |x| ensures x[i] == y[i] { assert x[i] == (a + b)[p + i]; }
  }

  // Normalising creates no plain ASCII word.
  lemma {:induction false} PlainOccurrence(t: Bytes, p: nat, w: Bytes)
    requires Plain(w) && LiteralAt(NormalizeBytes(t), p, w)
    ensures Occurs(t, w)
  {
    assert t != [];
    var head := if t[0] == SPACE then BOUNDARY else [t[0]];
    var rest := NormalizeBytes(t[1..]);
    assert NormalizeBytes(t) == head + rest;
    assert (head + rest)[p] == (head + rest)[p..p + |w|][0] == w[0];
    if p >= |head| {
      SliceBehind(head, rest, p, |w|);
      PlainOccurrence(t[1..], p - |head|, w);
      OccursAfter([t[0]], t[1..], w);
      assert [t[0]] + t[1..] == t;
    } else {
      assert t[0] != SPACE && p == 0;
      assert w == NormalizeBytes(t)[..|w|];
      PlainPrefix(t, w);
      assert LiteralAt(t, 0, w);
    }
  }

  // A span without added-token literals is never encoded to an id that decoding skips.
  lemma NoSpecialIds(v: Vocabulary, t: Bytes)
    requires Validated(v) && WellFormed(t) && NoLiteral(t)
    requires AllKnown(v, EncodePlain(v, t)) && (t != [] ==> RawText(v, EncodePlain(v, t)) == Normalize(t))
    ensures forall i :: 0 <= i < |EncodePlain(v, t)| ==> EncodePlain(v, t)[i] > 2
  {
    hide *;
    var ids := EncodePlain(v, t);
    forall i | 0 <= i < |ids| ensures ids[i] > 2 {
      if ids[i] <= 2 {
        NotEmpty(v, t);
        IdOccurs(v, ids, i);
        var w := SpecialPiece(v, ids[i]);
        NoPlainInNormalized(t, w);
      }
    }
  }

  lemma NotEmpty(v: Vocabulary, t: Bytes)
    requires Validated(v) && WellFormed(t) && EncodePlain(v, t) != []
    ensures t != []
  {
  }

  lemma SpecialPiece(v: Vocabulary, id: Id) returns (w: Bytes)
    requires Validated(v) && id <= 2
    ensures id < |v.pieces| && RawPiece(v.pieces[id]) == w
    ensures w in {UNK, BOS, EOS}
  {
    w := v.pieces[id];
  }

  lemma NoLiteralNoOccurrence(t: Bytes, w: Bytes)
    requires NoLiteral(t) && w in {UNK, BOS, EOS}
    ensures !Occurs(t, w)
  {
    forall p | 0 <= p ensures !LiteralAt(t, p, w) {
      if p < |t| { assert MatchAt(t, p).None?; }
    }
  }

  lemma NormalizedOccurrence(t: Bytes, p: nat, w: Bytes)
    requires Plain(w) && LiteralAt(Normalize(t), p, w)
    ensures Occurs(t, w)
  {
    hide NormalizeBytes;
    assert Normalize(t)[p] == Normalize(t)[p..p + |w|][0] == w[0];
    assert p >= 3;
    assert Normalize(t)[p..p + |w|] == NormalizeBytes(t)[p - 3..p - 3 + |w|];
    PlainOccurrence(t, p - 3, w);
  }

  lemma NoPlainInNormalized(t: Bytes, w: Bytes)
    requires NoLiteral(t) && w in {UNK, BOS, EOS}
    ensures !Occurs(Normalize(t), w)
  {
    hide NormalizeBytes;
    NoLiteralNoOccurrence(t, w);
    forall p | 0 <= p ensures !LiteralAt(Normalize(t), p, w) {
      if LiteralAt(Normalize(t), p, w) { NormalizedOccurrence(t, p, w); }
    }
  }

  lemma {:induction false} NothingSkipped(v: Vocabulary, ids: seq<Id>)
    requires AllKnown(v, ids) && forall i :: 0 <= i < |ids| ==> ids[i] > 2
    ensures DecodeIds(v, ids, true) == DecodeIds(v, ids, false)
  {
    hide DecodePiece;
    if ids != [] { NothingSkipped(v, ids[1..]); }
  }

  // ---------------------------------------------------------------- the round trip

  lemma NoLiteralIsOneSpan(v: Vocabulary, t: Bytes)
    requires Validated(v) && WellFormed(t) && NoLiteral(t)
    ensures WellFormed(t[0..]) && EncodeFrom(v, t, 0) == EncodePlain(v, t)
  {
    assert t[0..] == t;
    assert FirstLiteral(t, 0).None?;
  }

  ghost predicate HasBoundary(t: Bytes) {
    exists i :: 0 <= i < |t| && BoundaryAt(t, i)
  }

  lemma {:induction false} ReplaceShrinks(t: Bytes)
    ensures |ReplaceBoundary(t)| <= |t|
  {
    if BOUNDARY <= t { ReplaceShrinks(t[3..]); } else if t != [] { ReplaceShrinks(t[1..]); }
  }

  // The replacement keeps exactly the texts without U+2581.
  lemma ReplaceKeeps(t: Bytes)
    ensures ReplaceBoundary(t) == t <==> !HasBoundary(t)
  {
    var i := FirstBoundary(t, 0);
    ReplaceCopies(t, 0, i);
    assert t[0..] == t && t[..i] == t[0..i];
    if i < |t| {
      PatternIsBoundaryAt(t, i);
      assert ReplaceBoundary(t[i..]) == [SPACE] + ReplaceBoundary(t[i..][3..]);
      ReplaceShrinks(t[i..][3..]);
    } else {
      assert t[i..] == [] && t[0..i] == t;
    }
  }

  lemma {:induction false} FirstBoundary(t: Bytes, o: nat) returns (i: nat)
    requires o <= |t|
    ensures o <= i <= |t| && (i < |t| ==> BoundaryAt(t, i)) && forall k :: o <= k < i ==> !BoundaryAt(t, k)
    decreases |t| - o
  {
    if o == |t| || BoundaryAt(t, o) { i := o; } else { i := FirstBoundary(t, o + 1); }
  }

  // Decoding the encoding of t gives t back exactly when a kept beginning-of-sequence token is skipped
  // again and, for a nonempty text, U+2581 is a vocabulary piece and does not occur in the text.
  lemma DecodeUndoesEncode(v: Vocabulary, t: Bytes, addSpecial: bool, skip: bool)
    requires Validated(v) && NoByteMerges(v) && WellFormed(t) && NoLiteral(t)
    ensures WellFormed(t[0..])
    ensures var ids := (if addSpecial then [BOS_ID] else []) + EncodeFrom(v, t, 0);
      && AllKnown(v, ids)
      && (Strip(DecodeIds(v, ids, skip)) == t <==> (addSpecial ==> skip) && (t == [] || (BOUNDARY in v.ids && !HasBoundary(t))))
  {
    hide Validated, NoByteMerges, NoLiteral, EncodePlain, EncodeFrom, DecodeIds, Strip, Normalize, HasBoundary, ReplaceBoundary;
    NoLiteralIsOneSpan(v, t);
    var prefix := if addSpecial then [BOS_ID] else [];
    var plain := EncodePlain(v, t);
    EncodedSpan(v, t, skip);
    KnownPrefix(v, addSpecial);
    DecodeConcat(v, prefix, plain, skip);
    PrefixDecodes(v, addSpecial, skip);
    StripCases(v, t, addSpecial && !skip, DecodeIds(v, plain, skip));
  }

  // What a plain span decodes to.
  function SpanShown(v: Vocabulary, t: Bytes): Bytes {
    if t == [] then [] else if BOUNDARY in v.ids then [SPACE] + ReplaceBoundary(t) else Normalize(t)
  }

  lemma EncodedSpan(v: Vocabulary, t: Bytes, skip: bool)
    requires Validated(v) && NoByteMerges(v) && WellFormed(t) && NoLiteral(t)
    ensures AllKnown(v, EncodePlain(v, t))
    ensures DecodeIds(v, EncodePlain(v, t), skip) == SpanShown(v, t)
    ensures RawText(v, EncodePlain(v, t)) == if t == [] then [] else Normalize(t)
  {
    hide Validated, NoByteMerges, NoLiteral, EncodePlain, DecodeIds, Normalize, BoundaryAt, WellFormed, ReplaceBoundary;
    if t == [] {
      NothingEncoded(v, skip);
    } else {
      PlainSpanTexts(v, t);
      NoSpecialIds(v, t);
      NothingSkipped(v, EncodePlain(v, t));
    }
  }

  // ---------------------------------------------------------------- texts with added-token literals

  // A text from start on, with its plain spans normalised and its literals as they are.
  ghost function SpelledFrom(t: Bytes, start: nat): Bytes
    requires start <= |t|
    decreases |t| - start
  {
    match FirstLiteral(t, start)
    case None => if start == |t| then [] else Normalize(t[start..])
    case Some(o) =>
      var end := o + MatchAt(t, o).value.length;
      (if start == o then [] else Normalize(t[start..o])) + t[o..end] + SpelledFrom(t, end)
  }

  // The same with the spans as they are decoded; literals disappear when special ids are skipped.
  ghost function ShownFrom(v: Vocabulary, t: Bytes, start: nat, skip: bool): Bytes
    requires start <= |t|
    decreases |t| - start
  {
    match FirstLiteral(t, start)
    case None => SpanShown(v, t[start..])
    case Some(o) =>
      var end := o + MatchAt(t, o).value.length;
      SpanShown(v, t[start..o]) + (if skip then [] else t[o..end]) + ShownFrom(v, t, end, skip)
  }

  // A span in front of the first literal holds none.
  lemma SpanNoLiteral(t: Bytes, start: nat, end: nat)
    requires start <= end <= |t| && forall i :: start <= i < end ==> MatchAt(t, i).None?
    ensures NoLiteral(t[start..end])
  {
    var s := t[start..end];
    forall o | 0 <= o < |s| ensures MatchAt(s, o).None? {
      assert MatchAt(t, start + o).None?;
      LiteralInSpan(t, start, end, o, UNK);
      LiteralInSpan(t, start, end, o, BOS);
      LiteralInSpan(t, start, end, o, EOS);
    }
  }

  lemma SliceOfSlice(t: Bytes, start: nat, end: nat, a: nat, b: nat)
    requires start <= end <= |t| && a <= b <= end - start
    ensures t[start..end][a..b] == t[start + a..start + b]
  {
    var x, y := t[start..end][a..b], t[start + a..start + b];
    assert |x| == |y|;
    forall i | 0 <= i < |x| ensures x[i] == y[i] { assert x[i] == t[start..end][a + i]; }
  }

  lemma LiteralInSpan(t: Bytes, start: nat, end: nat, o: nat, w: Bytes)
    requires start <= end <= |t|
    ensures LiteralAt(t[start..end], o, w) ==> LiteralAt(t, start + o, w)
  {
    if o + |w| <= end - start { SliceOfSlice(t, start, end, o, o + |w|); }
  }

  // The id of a literal is that of the piece it spells, and is skipped with the special ids.
  lemma LiteralTexts(v: Vocabulary, t: Bytes, o: nat, skip: bool)
    requires Validated(v) && MatchAt(t, o).Some?
    ensures var m := MatchAt(t, o).value;
      && AllKnown(v, [m.id]) && v.pieces[m.id] == t[o..o + m.length]
      && RawText(v, [m.id]) == t[o..o + m.length]
      && DecodeIds(v, [m.id], skip) == if skip then [] else t[o..o + m.length]
  {
    var m := MatchAt(t, o).value;
    var w := t[o..o + m.length];
    MatchSpells(v, t, o);
    SingleTexts(v, m.id);
    assert DecodeIds(v, [m.id][1..], skip) == [];
    LiteralPiece(w);
  }

  lemma LiteralPiece(w: Bytes)
    requires w in {UNK, BOS, EOS}
    ensures DecodePiece(w) == w == RawPiece(w)
  {
    assert ParseBytePiece(w).None?;
    NoBoundaryByte(w);
    ReplaceKeeps(w);
  }

  lemma NoBoundaryByte(w: Bytes)
    requires BOUNDARY[0] !in w
    ensures !HasBoundary(w)
  {
    forall i | 0 <= i < |w| ensures !BoundaryAt(w, i) {
      if i + 3 <= |w| { assert w[i..i + 3][0] == w[i]; }
    }
  }

  // The ids of a text spell it, and decode to it with the spans as they are shown.
  lemma {:induction false} EncodedTexts(v: Vocabulary, t: Bytes, start: nat, skip: bool)
    requires Validated(v) && NoByteMerges(v) && start <= |t| && WellFormed(t[start..])
    ensures AllKnown(v, EncodeFrom(v, t, start))
    ensures RawText(v, EncodeFrom(v, t, start)) == SpelledFrom(t, start)
    ensures DecodeIds(v, EncodeFrom(v, t, start), skip) == ShownFrom(v, t, start, skip)
    decreases |t| - start
  {
    hide Validated, NoByteMerges, EncodePlain, DecodeIds, RawText, Normalize, WellFormed, SpanShown, MatchAt, NoLiteral;
    var first := FirstLiteral(t, start);
    if first.None? {
      assert t[start..|t|] == t[start..];
      SpanNoLiteral(t, start, |t|);
      EncodedSpan(v, t[start..], skip);
    } else {
      var o := first.value;
      SpansAreWellFormed(t, start, o);
      EncodedTexts(v, t, o + MatchAt(t, o).value.length, skip);
      hide EncodeFrom, SpelledFrom, ShownFrom;
      CutTexts(v, t, start, o, skip);
    }
  }

  lemma CutIds(v: Vocabulary, t: Bytes, start: nat, o: nat)
    requires Validated(v) && start <= o < |t| && WellFormed(t[start..]) && FirstLiteral(t, start) == Some(o)
    ensures WellFormed(t[start..o]) && WellFormed(t[o + MatchAt(t, o).value.length..])
    ensures EncodeFrom(v, t, start)
         == EncodePlain(v, t[start..o]) + [MatchAt(t, o).value.id] + EncodeFrom(v, t, o + MatchAt(t, o).value.length)
  {
    hide Validated, WellFormed, EncodePlain, MatchAt, FirstLiteral;
    SpansAreWellFormed(t, start, o);
  }

  lemma CutSpelling(v: Vocabulary, t: Bytes, start: nat, o: nat, skip: bool)
    requires start <= o < |t| && FirstLiteral(t, start) == Some(o)
    ensures var end := o + MatchAt(t, o).value.length;
      && SpelledFrom(t, start) == (if start == o then [] else Normalize(t[start..o])) + t[o..end] + SpelledFrom(t, end)
      && ShownFrom(v, t, start, skip) == SpanShown(v, t[start..o]) + (if skip then [] else t[o..end]) + ShownFrom(v, t, end, skip)
  {
    hide Normalize, SpanShown, MatchAt, FirstLiteral;
  }

  // The first span and literal in front of the rest.
  lemma CutTexts(v: Vocabulary, t: Bytes, start: nat, o: nat, skip: bool)
    requires Validated(v) && NoByteMerges(v) && start <= o < |t| && WellFormed(t[start..]) && FirstLiteral(t, start) == Some(o)
    requires var end := o + MatchAt(t, o).value.length;
      && WellFormed(t[end..]) && AllKnown(v, EncodeFrom(v, t, end))
      && RawText(v, EncodeFrom(v, t, end)) == SpelledFrom(t, end)
      && DecodeIds(v, EncodeFrom(v, t, end), skip) == ShownFrom(v, t, end, skip)
    ensures AllKnown(v, EncodeFrom(v, t, start))
    ensures RawText(v, EncodeFrom(v, t, start)) == SpelledFrom(t, start)
    ensures DecodeIds(v, EncodeFrom(v, t, start), skip) == ShownFrom(v, t, start, skip)
  {
    hide *;
    SpanNoLiteral(t, start, o);
    CutIds(v, t, start, o);
    CutSpelling(v, t, start, o, skip);
    EncodedSpan(v, t[start..o], skip);
    LiteralTexts(v, t, o, skip);
    ThreeParts(v, EncodePlain(v, t[start..o]), [MatchAt(t, o).value.id], EncodeFrom(v, t, o + MatchAt(t, o).value.length), skip);
  }

  lemma ThreeParts(v: Vocabulary, a: seq<Id>, b: seq<Id>, c: seq<Id>, skip: bool)
    requires AllKnown(v, a) && AllKnown(v, b) && AllKnown(v, c)
    ensures AllKnown(v, a + b + c)
    ensures RawText(v, a + b + c) == RawText(v, a) + RawText(v, b) + RawText(v, c)
    ensures DecodeIds(v, a + b + c, skip) == DecodeIds(v, a, skip) + DecodeIds(v, b, skip) + DecodeIds(v, c, skip)
  {
    hide DecodeIds, RawText;
    RawTextConcat(v, a, b);
    RawTextConcat(v, a + b, c);
    DecodeConcat(v, a, b, skip);
    DecodeConcat(v, a + b, c, skip);
  }

  lemma NothingEncoded(v: Vocabulary, skip: bool)
    requires Validated(v) && WellFormed([])
    ensures EncodePlain(v, []) == [] && DecodeIds(v, [], skip) == []
  {
  }

  lemma KnownPrefix(v: Vocabulary, addSpecial: bool)
    requires Validated(v)
    ensures AllKnown(v, if addSpecial then [BOS_ID] else [])
  {
  }

  lemma PrefixDecodes(v: Vocabulary, addSpecial: bool, skip: bool)
    requires Validated(v)
    ensures AllKnown(v, if addSpecial then [BOS_ID] else [])
    ensures DecodeIds(v, if addSpecial then [BOS_ID] else [], skip) == if addSpecial && !skip then BOS else []
  {
    assert DecodeIds(v, [], skip) == [];
    if addSpecial {
      assert [BOS_ID][1..] == [];
      assert DecodePiece(BOS) == BOS by {
        assert BOS[0..3] == BOS && BOS[0..] == BOS && BOS[3..] == [];
        ReplaceCopies(BOS, 0, 3);
      }
    }
  }

  lemma StripCases(v: Vocabulary, t: Bytes, marked: bool, decoded: Bytes)
    requires NoLiteral(t) && decoded == SpanShown(v, t)
    ensures Strip((if marked then BOS else []) + decoded) == t <==> !marked && (t == [] || (BOUNDARY in v.ids && !HasBoundary(t)))
  {
    assert [] + decoded == decoded;
    ReplaceKeeps(t);
    if marked {
      var s := BOS + decoded;
      assert s[0] == 0x3C && Strip(s) == s && s[0..3] == BOS;
      assert LiteralAt(s, 0, BOS);
      assert s == t ==> MatchAt(t, 0).Some?;
    } else if t != [] && BOUNDARY !in v.ids {
      NormalizeGrows(t);
    }
  }

  lemma {:induction false} NormalizeGrows(t: Bytes)
    ensures |NormalizeBytes(t)| >= |t|
    ensures |Normalize(t)| > |t|
    ensures Normalize(t)[0] != SPACE
  {
    if t != [] { NormalizeGrows(t[1..]); }
  }
}

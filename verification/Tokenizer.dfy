// Validated vocabulary tables, the normalisation of spans, and the initial symbols of a span.

module Tokenizer {
  import opened SizeT
  import opened Utf8
  import opened Bpe

  type Bytes = seq<byte>

  const SPACE: byte := 0x20
  // U+2581 and its encoding
  const BOUNDARY_POINT: nat := 0x2581
  const BOUNDARY: Bytes := [0xE2, 0x96, 0x81]

  const UNK: Bytes := [0x3C, 0x75, 0x6E, 0x6B, 0x3E]  // <unk>
  const BOS: Bytes := [0x3C, 0x73, 0x3E]              // <s>
  const EOS: Bytes := [0x3C, 0x2F, 0x73, 0x3E]        // </s>
  const BOS_ID: Id := 1
  const FIRST_BYTE_ID: Id := 3
  const VOCABULARY_SIZE: nat := 32000

  // ---------------------------------------------------------------- byte pieces

  function HexDigit(value: nat): byte
    requires value < 16
  {
    if value < 10 then 0x30 + value else 0x41 + value - 10
  }

  function HexValue(digit: byte): Option<nat> {
    if 0x30 <= digit <= 0x39 then Some(digit - 0x30)
    else if 0x41 <= digit <= 0x46 then Some(digit - 0x41 + 10)
    else None
  }

  // byte_piece: "<0xHH>"
  function BytePiece(b: byte): Bytes {
    [0x3C, 0x30, 0x78, HexDigit(b / 16), HexDigit(b % 16), 0x3E]
  }

  // is_byte_fallback_piece
  function ParseBytePiece(piece: Bytes): (r: Option<byte>)
    ensures r.Some? ==> |piece| == 6 && piece == BytePiece(r.value)
  {
    if |piece| != 6 || piece[0] != 0x3C || piece[1] != 0x30 || piece[2] != 0x78 || piece[5] != 0x3E then None
    else
      var high :- HexValue(piece[3]);
      var low :- HexValue(piece[4]);
      Some(high * 16 + low)
  }

  lemma BytePieceParses(b: byte)
    ensures ParseBytePiece(BytePiece(b)) == Some(b)
  {
  }

  // The literal texts of the source's constants.
  predicate Spells(piece: Bytes, text: string) {
    |piece| == |text| && forall i :: 0 <= i < |piece| ==> piece[i] == text[i] as int
  }

  lemma SpecialsSpelled()
    ensures Spells(UNK, "<unk>") && Spells(BOS, "<s>") && Spells(EOS, "</s>")
  {
  }

  lemma BytePieceSpelled(b: byte)
    ensures Spells(BytePiece(b), "<0x" + ["0123456789ABCDEF"[b / 16], "0123456789ABCDEF"[b % 16], '>'])
  {
    HexSpelled(b / 16);
    HexSpelled(b % 16);
  }

  lemma HexSpelled(value: nat)
    requires value < 16
    ensures HexDigit(value) == "0123456789ABCDEF"[value] as int
  {
  }

  // ---------------------------------------------------------------- validated tables

  datatype Vocabulary = Vocabulary(ids: map<Bytes, Id>, pieces: seq<Bytes>, merges: Tables)

  // What validate_vocabulary_and_merges and validate_added_tokens establish.
  ghost predicate Validated(v: Vocabulary) {
    && |v.pieces| == VOCABULARY_SIZE
    && (forall p :: p in v.ids ==> v.ids[p] < |v.pieces| && v.pieces[v.ids[p]] == p)
    && (forall id :: 0 <= id < |v.pieces| ==> v.pieces[id] in v.ids && v.ids[v.pieces[id]] == id)
    && v.pieces[0] == UNK && v.pieces[1] == BOS && v.pieces[2] == EOS
    && (forall b: byte :: BytePieceAt(v, b))
    && ValidTables(v.merges)
    && (forall p :: p in v.merges.results ==> MergeConcatenates(v, p))
  }

  ghost predicate BytePieceAt(v: Vocabulary, b: byte)
    requires |v.pieces| == VOCABULARY_SIZE
  {
    v.pieces[FIRST_BYTE_ID + b] == BytePiece(b)
  }

  ghost predicate MergeConcatenates(v: Vocabulary, p: (Id, Id))
    requires p in v.merges.results
  {
    && p.0 < |v.pieces| && p.1 < |v.pieces| && v.merges.results[p] < |v.pieces|
    && v.pieces[v.merges.results[p]] == v.pieces[p.0] + v.pieces[p.1]
  }

  predicate IsByteId(v: Vocabulary, id: Id)
    requires id < |v.pieces|
  {
    ParseBytePiece(v.pieces[id]).Some?
  }

  // No merge row has a byte piece as operand or result.
  ghost predicate NoByteMerges(v: Vocabulary)
    requires Validated(v)
  {
    forall p :: p in v.merges.results ==>
      MergeConcatenates(v, p) && !IsByteId(v, p.0) && !IsByteId(v, p.1) && !IsByteId(v, v.merges.results[p])
  }

  ghost predicate AllKnown(v: Vocabulary, ids: seq<Id>) {
    forall i :: 0 <= i < |ids| ==> ids[i] < |v.pieces|
  }

  // ---------------------------------------------------------------- normalisation

  // Each space becomes U+2581.
  function NormalizeBytes(t: Bytes): Bytes {
    if t == [] then []
    else (if t[0] == SPACE then BOUNDARY else [t[0]]) + NormalizeBytes(t[1..])
  }

  // The Prepend and Replace normalizers.
  function Normalize(t: Bytes): Bytes {
    BOUNDARY + NormalizeBytes(t)
  }

  // The same normalisation on code points.
  ghost function NormalizePoints(cps: seq<nat>): (r: seq<nat>)
    requires AllScalars(cps)
    ensures AllScalars(r) && |r| == |cps|
    ensures forall i :: 0 <= i < |r| ==> r[i] == if cps[i] == 0x20 then BOUNDARY_POINT else cps[i]
  {
    seq(|cps|, i requires 0 <= i < |cps| => if cps[i] == 0x20 then BOUNDARY_POINT else cps[i])
  }

  // normalize_encode_span
  method NormalizeSpan(plain: Bytes) returns (normalized: Bytes)
    ensures normalized == Normalize(plain)
  {
    normalized := BOUNDARY;
    var offset := 0;
    while offset < |plain|
      invariant 0 <= offset <= |plain|
      invariant normalized + NormalizeBytes(plain[offset..]) == Normalize(plain)
    {
      assert plain[offset..][1..] == plain[offset + 1..];
      if plain[offset] == SPACE {
        normalized := normalized + BOUNDARY;
      } else {
        normalized := normalized + [plain[offset]];
      }
      offset := offset + 1;
    }
  }

  lemma {:induction false} NormalizeBytesConcat(a: Bytes, b: Bytes)
    ensures NormalizeBytes(a + b) == NormalizeBytes(a) + NormalizeBytes(b)
  {
    if a == [] {
      assert a + b == b;
    } else {
      assert (a + b)[1..] == a[1..] + b;
      NormalizeBytesConcat(a[1..], b);
    }
  }

  lemma {:induction false} NormalizeNoSpace(a: Bytes)
    requires SPACE !in a
    ensures NormalizeBytes(a) == a
  {
    if a != [] { NormalizeNoSpace(a[1..]); }
  }

  lemma EncodedBytes(cp: nat)
    requires IsScalar(cp)
    ensures cp < 0x80 ==> Encode(cp) == [cp]
    ensures cp >= 0x80 ==> forall i :: 0 <= i < |Encode(cp)| ==> Encode(cp)[i] >= 0x80
    ensures forall i :: 1 <= i < |Encode(cp)| ==> Encode(cp)[i] < 0xC0
    ensures TableLength(Encode(cp)[0]) == |Encode(cp)|
  {
    PayloadOfEncoding(cp);
  }

  // Normalising bytes is normalising code points: spaces are whole scalars.
  lemma {:induction false} NormalizeIsPointwise(cps: seq<nat>)
    requires AllScalars(cps)
    ensures NormalizeBytes(EncodeAll(cps)) == EncodeAll(NormalizePoints(cps))
  {
    if cps != [] {
      NormalizeIsPointwise(cps[1..]);
      assert NormalizePoints(cps)[1..] == NormalizePoints(cps[1..]);
      NormalizeBytesConcat(Encode(cps[0]), EncodeAll(cps[1..]));
      EncodedBytes(cps[0]);
      if cps[0] == 0x20 {
        assert NormalizeBytes([SPACE]) == BOUNDARY + NormalizeBytes([]);
        assert Encode(BOUNDARY_POINT) == BOUNDARY;
      } else {
        NormalizeNoSpace(Encode(cps[0]));
      }
    }
  }

  // ---------------------------------------------------------------- initial symbols

  function ByteIds(u: Bytes): (r: seq<Id>)
    ensures |r| == |u|
    ensures forall i :: 0 <= i < |u| ==> r[i] == FIRST_BYTE_ID + u[i]
  {
    seq(|u|, i requires 0 <= i < |u| => FIRST_BYTE_ID + u[i])
  }

  // One scalar is one vocabulary id, or one byte piece per byte when it is not in the vocabulary.
  function SymbolsOfScalar(v: Vocabulary, u: Bytes): seq<Id> {
    if u in v.ids then [v.ids[u]] else ByteIds(u)
  }

  ghost function SymbolsOf(v: Vocabulary, cps: seq<nat>): seq<Id>
    requires AllScalars(cps)
  {
    if cps == [] then [] else SymbolsOfScalar(v, Encode(cps[0])) + SymbolsOf(v, cps[1..])
  }

  // Scalars that are vocabulary pieces are never spelled out in bytes.
  lemma {:induction false} SymbolsUsePieces(v: Vocabulary, cps: seq<nat>)
    requires Validated(v) && AllScalars(cps) && forall i :: 0 <= i < |cps| ==> Encode(cps[i]) in v.ids
    ensures |SymbolsOf(v, cps)| == |cps|
    ensures forall i :: 0 <= i < |cps| ==> SymbolsOf(v, cps)[i] < |v.pieces| && v.pieces[SymbolsOf(v, cps)[i]] == Encode(cps[i])
  {
    hide Encode;
    if cps != [] {
      assert Encode(cps[0]) in v.ids;
      assert forall i :: 0 <= i < |cps[1..]| ==> cps[1..][i] == cps[i + 1];
      SymbolsUsePieces(v, cps[1..]);
    }
  }

  // encode_utf8_scalar_length; None stands for the logic_error.
  function ScalarLength(lead: byte): Option<nat> {
    if lead <= 0x7F then Some(1)
    else if lead <= 0xDF then Some(2)
    else if lead <= 0xEF then Some(3)
    else if lead <= 0xF4 then Some(4)
    else None
  }

  // The byte-fallback loop for one scalar.
  method AppendBytes(v: Vocabulary, nodes: SymbolList, scalar: Bytes) returns (outcome: Outcome)
    requires Validated(v) && Pristine(nodes.nodes)
    modifies nodes
    ensures outcome != InternalError && Pristine(nodes.nodes)
    ensures outcome.Done? ==> AllIds(nodes.nodes) == AllIds(old(nodes.nodes)) + ByteIds(scalar)
    ensures |old(nodes.nodes)| + |scalar| <= MAX_NODES ==> outcome.Done?
  {
    for index := 0 to |scalar|
      invariant Pristine(nodes.nodes)
      invariant AllIds(nodes.nodes) == AllIds(old(nodes.nodes)) + ByteIds(scalar[..index])
    {
      assert BytePieceAt(v, scalar[index]);
      var piece := BytePiece(scalar[index]);
      if piece !in v.ids {
        return InternalError;
      }
      var ok := nodes.Append(v.ids[piece]);
      if !ok {
        return SizeOverflow;
      }
      assert ByteIds(scalar[..index + 1]) == ByteIds(scalar[..index]) + [v.ids[piece]];
    }
    assert scalar[..|scalar|] == scalar;
    outcome := Done;
  }

  // One scalar of the symbol loop: a vocabulary hit, or its bytes.
  method AppendScalar(v: Vocabulary, nodes: SymbolList, scalar: Bytes) returns (outcome: Outcome)
    requires Validated(v) && Pristine(nodes.nodes) && scalar != []
    modifies nodes
    ensures outcome != InternalError && Pristine(nodes.nodes)
    ensures outcome.Done? ==> AllIds(nodes.nodes) == AllIds(old(nodes.nodes)) + SymbolsOfScalar(v, scalar)
    ensures |old(nodes.nodes)| + |scalar| <= MAX_NODES ==> outcome.Done?
    ensures outcome.Done? ==> |nodes.nodes| <= |old(nodes.nodes)| + |scalar|
  {
    if scalar in v.ids {
      var ok := nodes.Append(v.ids[scalar]);
      assert |AllIds(nodes.nodes)| == |nodes.nodes|;
      return if ok then Done else SizeOverflow;
    }
    outcome := AppendBytes(v, nodes, scalar);
    assert |AllIds(nodes.nodes)| == |nodes.nodes|;
  }

  lemma SplitSuffix(text: Bytes, offset: nat, u: Bytes, rest: Bytes)
    requires offset <= |text| && text[offset..] == u + rest
    ensures offset + |u| <= |text|
    ensures text[offset..offset + |u|] == u && text[offset + |u|..] == rest
  {
    assert text[offset..offset + |u|] == text[offset..][..|u|];
    assert text[offset + |u|..] == text[offset..][|u|..];
  }

  lemma SymbolsStep(v: Vocabulary, done: seq<Id>, cps: seq<nat>)
    requires AllScalars(cps) && cps != []
    ensures done + SymbolsOf(v, cps) == (done + SymbolsOfScalar(v, Encode(cps[0]))) + SymbolsOf(v, cps[1..])
  {
    Associative(done, SymbolsOfScalar(v, Encode(cps[0])), SymbolsOf(v, cps[1..]));
  }

  lemma Associative<T>(a: seq<T>, b: seq<T>, c: seq<T>)
    ensures (a + b) + c == a + (b + c)
  {
  }

  lemma LeadLength(cp: nat)
    requires IsScalar(cp)
    ensures ScalarLength(Encode(cp)[0]) == Some(|Encode(cp)|)
  {
    PayloadOfEncoding(cp);
  }

  // The first scalar of an encoded text, found from its lead byte.
  lemma LeadGivesScalar(text: Bytes, offset: nat, cps: seq<nat>) returns (u: Bytes)
    requires offset < |text| && AllScalars(cps) && text[offset..] == EncodeAll(cps)
    ensures cps != [] && u == Encode(cps[0]) && u != []
    ensures offset + |u| <= |text| && text[offset..offset + |u|] == u
    ensures ScalarLength(text[offset]) == Some(|u|)
    ensures text[offset + |u|..] == EncodeAll(cps[1..])
  {
    assert |text[offset..]| > 0;
    u := Encode(cps[0]);
    LeadLength(cps[0]);
    SplitSuffix(text, offset, u, EncodeAll(cps[1..]));
    assert text[offset] == text[offset..offset + |u|][0];
  }

  lemma NoneYet(v: Vocabulary, nodes: seq<Node>, cps: seq<nat>)
    requires nodes == [] && AllScalars(cps)
    ensures Pristine(nodes) && AllIds(nodes) + SymbolsOf(v, cps) == SymbolsOf(v, cps)
  {
    assert AllIds(nodes) == [];
  }

  lemma ScalarsTail(cps: seq<nat>)
    requires AllScalars(cps) && cps != []
    ensures AllScalars(cps[1..])
  {
  }

  lemma EncodesSomething(cps: seq<nat>)
    requires AllScalars(cps) && cps != []
    ensures EncodeAll(cps) != []
  {
    assert |EncodeAll(cps)| >= |Encode(cps[0])| > 0;
  }

  lemma NothingLeft(v: Vocabulary, ids: seq<Id>, cps: seq<nat>)
    requires AllScalars(cps) && EncodeAll(cps) == []
    ensures ids + SymbolsOf(v, cps) == ids
  {
    if cps != [] { EncodesSomething(cps); }
  }

  // append_encode_initial_symbols
  method AppendInitialSymbols(v: Vocabulary, nodes: SymbolList, normalized: Bytes, ghost cps: seq<nat>)
    returns (outcome: Outcome)
    requires Validated(v) && nodes.nodes == []
    requires AllScalars(cps) && EncodeAll(cps) == normalized
    modifies nodes
    ensures outcome != InternalError && Pristine(nodes.nodes)
    ensures outcome.Done? ==> AllIds(nodes.nodes) == SymbolsOf(v, cps)
    ensures |normalized| <= MAX_NODES ==> outcome.Done?
    ensures outcome.Done? ==> |nodes.nodes| <= |normalized|
  {
    hide Validated, Pristine, AllScalars, AllIds, SymbolsOf, SymbolsOfScalar, EncodeAll, Encode, ScalarLength;
    NoneYet(v, nodes.nodes, cps);
    if |normalized| > MAX_NODES {
      return SizeOverflow;
    }
    var offset := 0;
    ghost var left := cps;
    assert normalized[0..] == normalized;
    while offset < |normalized|
      invariant 0 <= offset <= |normalized|
      invariant AllScalars(left) && normalized[offset..] == EncodeAll(left)
      invariant Pristine(nodes.nodes) && |nodes.nodes| <= offset
      invariant AllIds(nodes.nodes) + SymbolsOf(v, left) == SymbolsOf(v, cps)
    {
      ghost var u := LeadGivesScalar(normalized, offset, left);
      SymbolsStep(v, AllIds(nodes.nodes), left);
      var length := ScalarLength(normalized[offset]);
      if length.None? {
        return InternalError;
      }
      outcome := AppendScalar(v, nodes, normalized[offset..offset + length.value]);
      if !outcome.Done? {
        return;
      }
      offset := offset + length.value;
      ScalarsTail(left);
      left := left[1..];
    }
    NothingLeft(v, AllIds(nodes.nodes), left);
    outcome := Done;
  }
}

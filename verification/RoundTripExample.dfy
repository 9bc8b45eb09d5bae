// A validated table on which decoding does not undo encoding, and one on which it does.

module RoundTripExample {
  import opened Utf8
  import opened Bpe
  import opened Tokenizer
  import opened Encoder
  import opened Decoder
  import opened RoundTrip

  const LAST_ID: Id := VOCABULARY_SIZE - 1

  // The three special tokens, the byte pieces, and three-letter pieces; the last one may be U+2581.
  function PieceOf(id: Id, boundary: bool): Bytes
    requires id < VOCABULARY_SIZE
  {
    if id == 0 then UNK
    else if id == 1 then BOS
    else if id == 2 then EOS
    else if id < FIRST_BYTE_ID + 256 then BytePiece(id - FIRST_BYTE_ID)
    else if id == LAST_ID && boundary then BOUNDARY
    else Letters(id)
  }

  function Letters(id: Id): Bytes
    requires id < VOCABULARY_SIZE
  {
    [0x41 + id / 1024, 0x41 + id / 32 % 32, 0x41 + id % 32]
  }

  function Number(a: int, b: int, c: int): int {
    (a - 0x41) * 1024 + (b - 0x41) * 32 + (c - 0x41)
  }

  function IdOf(piece: Bytes): int {
    if piece == UNK then 0
    else if piece == BOS then 1
    else if piece == EOS then 2
    else if piece == BOUNDARY then LAST_ID
    else if ParseBytePiece(piece).Some? then FIRST_BYTE_ID + ParseBytePiece(piece).value
    else if |piece| == 3 then Number(piece[0], piece[1], piece[2])
    else 0
  }

  lemma LettersRead(id: Id)
    requires id < VOCABULARY_SIZE
    ensures Number(Letters(id)[0], Letters(id)[1], Letters(id)[2]) == id
  {
    assert id / 32 == id / 1024 * 32 + id / 32 % 32 by { assert id / 32 / 32 == id / 1024; }
  }

  lemma PieceOfInjective(id: Id, boundary: bool)
    requires id < VOCABULARY_SIZE
    ensures IdOf(PieceOf(id, boundary)) == id
  {
    if FIRST_BYTE_ID <= id < FIRST_BYTE_ID + 256 {
      BytePieceParses(id - FIRST_BYTE_ID);
    } else if 2 < id {
      LettersRead(id);
    }
  }

  ghost function IdMap(boundary: bool): (ids: map<Bytes, Id>)
    ensures forall id :: 0 <= id < VOCABULARY_SIZE ==> PieceOf(id, boundary) in ids && ids[PieceOf(id, boundary)] == id
    ensures forall p :: p in ids ==> ids[p] < VOCABULARY_SIZE && PieceOf(ids[p], boundary) == p
  {
    forall i, j | 0 <= i < VOCABULARY_SIZE && 0 <= j < VOCABULARY_SIZE && PieceOf(i, boundary) == PieceOf(j, boundary) ensures i == j {
      PieceOfInjective(i, boundary);
      PieceOfInjective(j, boundary);
    }
    map id | 0 <= id < VOCABULARY_SIZE :: PieceOf(id, boundary) := id
  }

  ghost function Pieces(boundary: bool): (pieces: seq<Bytes>)
    ensures |pieces| == VOCABULARY_SIZE && forall id :: 0 <= id < |pieces| ==> pieces[id] == PieceOf(id, boundary)
  {
    seq(VOCABULARY_SIZE, id requires 0 <= id < VOCABULARY_SIZE => PieceOf(id, boundary))
  }

  ghost function Example(boundary: bool): Vocabulary {
    Vocabulary(IdMap(boundary), Pieces(boundary), Tables(map[], map[]))
  }

  lemma ExampleValidated(boundary: bool)
    ensures Validated(Example(boundary)) && NoByteMerges(Example(boundary))
    ensures BOUNDARY in Example(boundary).ids <==> boundary
  {
    var v := Example(boundary);
    hide IdMap, Pieces;
    forall b: byte ensures v.pieces[FIRST_BYTE_ID + b] == BytePiece(b) {}
    assert boundary ==> PieceOf(LAST_ID, boundary) == BOUNDARY;
    forall id | 0 <= id < VOCABULARY_SIZE && !boundary ensures PieceOf(id, boundary) != BOUNDARY {}
    hide PieceOf, BytePiece;
    assert forall id :: 0 <= id < VOCABULARY_SIZE ==> v.pieces[id] in v.ids && v.ids[v.pieces[id]] == id;
    assert v.pieces[0] == UNK && v.pieces[1] == BOS && v.pieces[2] == EOS by { SpecialPieces(boundary); }
  }

  lemma SpecialPieces(boundary: bool)
    ensures PieceOf(0, boundary) == UNK && PieceOf(1, boundary) == BOS && PieceOf(2, boundary) == EOS
  {
  }

  // The text "a" comes back from the table that has U+2581 as a piece, and not from the one without.
  lemma LetterRoundTrip(boundary: bool)
    ensures Validated(Example(boundary)) && NoByteMerges(Example(boundary))
    ensures WellFormed([0x61][0..]) && AllKnown(Example(boundary), EncodeFrom(Example(boundary), [0x61], 0))
    ensures Strip(DecodeIds(Example(boundary), EncodeFrom(Example(boundary), [0x61], 0), false)) == [0x61] <==> boundary
  {
    ExampleValidated(boundary);
    LetterIsPlain();
    hide Validated, NoByteMerges, Example, EncodeFrom, DecodeIds, Strip, NoLiteral, WellFormed, HasBoundary;
    assert [] + EncodeFrom(Example(boundary), [0x61], 0) == EncodeFrom(Example(boundary), [0x61], 0);
    DecodeUndoesEncode(Example(boundary), [0x61], false, false);
  }

  lemma LetterIsPlain()
    ensures WellFormed([0x61]) && NoLiteral([0x61]) && !HasBoundary([0x61])
    ensures [0x61][0..] == [0x61]
  {
    assert EncodeAll([0x61]) == Encode(0x61) + EncodeAll([]) == [0x61] by { assert [0x61][1..] == []; }
    assert AllScalars([0x61]);
  }
}

// Decoding ids to text: byte pieces give back their byte, U+2581 becomes a space, one leading
// space is stripped.

module Decoder {
  import opened SizeT
  import opened Utf8
  import opened Bpe
  import opened Tokenizer

  // ---------------------------------------------------------------- reference decoder

  // Leftmost, non-overlapping replacement of U+2581 by a space.
  function ReplaceBoundary(s: Bytes): Bytes {
    if s == [] then []
    else if BOUNDARY <= s then [SPACE] + ReplaceBoundary(s[3..])
    else [s[0]] + ReplaceBoundary(s[1..])
  }

  function DecodePiece(piece: Bytes): Bytes {
    match ParseBytePiece(piece)
    case Some(b) => [b]
    case None => ReplaceBoundary(piece)
  }

  predicate Skipped(id: Id, skip: bool) {
    skip && id <= 2
  }

  function DecodeIds(v: Vocabulary, ids: seq<Id>, skip: bool): Bytes
    requires AllKnown(v, ids)
  {
    if ids == [] then []
    else (if Skipped(ids[0], skip) then [] else DecodePiece(v.pieces[ids[0]])) + DecodeIds(v, ids[1..], skip)
  }

  function Strip(s: Bytes): Bytes {
    if s != [] && s[0] == SPACE then s[1..] else s
  }

  // ---------------------------------------------------------------- decoder methods

  predicate BoundaryAt(s: Bytes, i: nat) {
    i + 3 <= |s| && s[i..i + 3] == BOUNDARY
  }

  // string_view::find for the replacement pattern.
  method FindBoundary(s: Bytes, cursor: nat) returns (r: Option<nat>)
    requires cursor <= |s|
    ensures r.Some? ==> cursor <= r.value && BoundaryAt(s, r.value)
    ensures forall i :: cursor <= i && i < (if r.Some? then r.value else |s|) ==> !BoundaryAt(s, i)
  {
    for i := cursor to |s|
      invariant forall j :: cursor <= j < i ==> !BoundaryAt(s, j)
    {
      if i + 3 <= |s| && s[i..i + 3] == BOUNDARY {
        return Some(i);
      }
    }
    r := None;
  }

  lemma PatternIsBoundaryAt(s: Bytes, i: nat)
    requires i <= |s|
    ensures BOUNDARY <= s[i..] <==> BoundaryAt(s, i)
  {
    if i + 3 <= |s| { assert s[i..i + 3] == s[i..][..3]; }
  }

  // Bytes in front of the next match are copied unchanged.
  lemma {:induction false} ReplaceCopies(s: Bytes, cursor: nat, stop: nat)
    requires cursor <= stop <= |s|
    requires forall i :: cursor <= i < stop ==> !BoundaryAt(s, i)
    ensures ReplaceBoundary(s[cursor..]) == s[cursor..stop] + ReplaceBoundary(s[stop..])
    decreases stop - cursor
  {
    if cursor == stop {
      assert s[cursor..stop] == [];
    } else {
      ReplaceCopies(s, cursor + 1, stop);
      assert s[cursor..][1..] == s[cursor + 1..];
      assert s[cursor..stop] == [s[cursor]] + s[cursor + 1..stop];
      PatternIsBoundaryAt(s, cursor);
      Associative([s[cursor]], s[cursor + 1..stop], ReplaceBoundary(s[stop..]));
    }
  }

  // The next match is replaced by a space.
  lemma ReplaceMatch(s: Bytes, cursor: nat, stop: nat, done: Bytes)
    requires cursor <= stop && BoundaryAt(s, stop)
    requires forall i :: cursor <= i < stop ==> !BoundaryAt(s, i)
    ensures done + ReplaceBoundary(s[cursor..]) == done + s[cursor..stop] + [SPACE] + ReplaceBoundary(s[stop + 3..])
  {
    ReplaceCopies(s, cursor, stop);
    PatternIsBoundaryAt(s, stop);
    assert s[stop..][3..] == s[stop + 3..];
    Associative(done, s[cursor..stop], ReplaceBoundary(s[stop..]));
    Associative(done + s[cursor..stop], [SPACE], ReplaceBoundary(s[stop + 3..]));
  }

  // append_decoded_piece
  method AppendDecodedPiece(output: Bytes, piece: Bytes) returns (r: Bytes)
    ensures r == output + DecodePiece(piece)
  {
    var parsed := ParseBytePiece(piece);
    if parsed.Some? {
      return output + [parsed.value];
    }
    r := output;
    var cursor := 0;
    assert piece[0..] == piece;
    while true
      invariant 0 <= cursor <= |piece|
      invariant r + ReplaceBoundary(piece[cursor..]) == output + ReplaceBoundary(piece)
      decreases |piece| - cursor
    {
      var found := FindBoundary(piece, cursor);
      if found.None? {
        ReplaceCopies(piece, cursor, |piece|);
        assert piece[|piece|..] == [];
        return r + piece[cursor..];
      }
      ReplaceMatch(piece, cursor, found.value, r);
      r := r + piece[cursor..found.value] + [SPACE];
      cursor := found.value + 3;
    }
  }

  lemma DecodeHead(v: Vocabulary, ids: seq<Id>, i: nat, skip: bool, done: Bytes)
    requires AllKnown(v, ids) && i < |ids|
    ensures done + DecodeIds(v, ids[i..], skip)
         == (if Skipped(ids[i], skip) then done else done + DecodePiece(v.pieces[ids[i]])) + DecodeIds(v, ids[i + 1..], skip)
  {
    assert ids[i..][1..] == ids[i + 1..];
    Associative(done, DecodePiece(v.pieces[ids[i]]), DecodeIds(v, ids[i + 1..], skip));
  }

  // Tokenizer::decode; None stands for the invalid-id exception.
  method DecodeText(v: Vocabulary, ids: seq<Id>, skip: bool) returns (r: Option<Bytes>)
    ensures r.Some? <==> AllKnown(v, ids)
    ensures r.Some? ==> r.value == Strip(DecodeIds(v, ids, skip))
  {
    for index := 0 to |ids|
      invariant forall i :: 0 <= i < index ==> ids[i] < |v.pieces|
    {
      if ids[index] >= |v.pieces| {
        return None;
      }
    }
    hide DecodePiece;
    var result: Bytes := [];
    assert ids[0..] == ids;
    for index := 0 to |ids|
      invariant result + DecodeIds(v, ids[index..], skip) == DecodeIds(v, ids, skip)
    {
      DecodeHead(v, ids, index, skip, result);
      if !Skipped(ids[index], skip) {
        result := AppendDecodedPiece(result, v.pieces[ids[index]]);
      }
    }
    if result != [] && result[0] == SPACE {
      result := result[1..];
    }
    r := Some(result);
  }

  // ---------------------------------------------------------------- replacement on scalars

  // How one scalar is shown after replacement.
  ghost function ShownScalar(cp: nat): Bytes
    requires IsScalar(cp)
  {
    if cp == BOUNDARY_POINT then [SPACE] else Encode(cp)
  }

  ghost function Shown(cps: seq<nat>): Bytes
    requires AllScalars(cps)
  {
    if cps == [] then [] else ShownScalar(cps[0]) + Shown(cps[1..])
  }

  lemma NoMatchInside(cp: nat, x: Bytes, i: nat)
    requires IsScalar(cp) && cp != BOUNDARY_POINT && i < |Encode(cp)|
    ensures !BoundaryAt(Encode(cp) + x, i)
  {
    EncodedBytes(cp);
    var u, s := Encode(cp), Encode(cp) + x;
    NotBoundary(cp);
    hide Encode, Payload, IsScalar;
    assert |u| == 3 ==> u == s[0..3];
    BoundaryLead(s, i);
  }

  lemma BoundaryLead(s: Bytes, i: nat)
    ensures BoundaryAt(s, i) ==> s[i] == 0xE2 && TableLength(s[i]) == 3
  {
    if BoundaryAt(s, i) { assert s[i] == s[i..i + 3][0]; }
  }

  lemma NotBoundary(cp: nat)
    requires IsScalar(cp) && cp != BOUNDARY_POINT
    ensures Encode(cp) != BOUNDARY
  {
    PayloadOfEncoding(cp);
    assert Payload(BOUNDARY, 3) == BOUNDARY_POINT;
  }

  // The replacement sees whole scalars only.
  lemma ReplaceScalar(cp: nat, x: Bytes)
    requires IsScalar(cp)
    ensures ReplaceBoundary(Encode(cp) + x) == ShownScalar(cp) + ReplaceBoundary(x)
  {
    var s := Encode(cp) + x;
    if cp == BOUNDARY_POINT {
      assert Encode(cp) == BOUNDARY;
      assert s[3..] == x;
    } else {
      forall i | 0 <= i < |Encode(cp)| ensures !BoundaryAt(s, i) { NoMatchInside(cp, x, i); }
      ReplaceCopies(s, 0, |Encode(cp)|);
      assert s[0..] == s && s[|Encode(cp)|..] == x && s[0..|Encode(cp)|] == Encode(cp);
    }
  }

  lemma {:induction false} ReplaceScalars(cps: seq<nat>, x: Bytes)
    requires AllScalars(cps)
    ensures ReplaceBoundary(EncodeAll(cps) + x) == Shown(cps) + ReplaceBoundary(x)
  {
    if cps == [] {
      assert EncodeAll(cps) + x == x;
    } else {
      var u, rest := Encode(cps[0]), EncodeAll(cps[1..]);
      Associative(u, rest, x);
      ReplaceScalar(cps[0], rest + x);
      ReplaceScalars(cps[1..], x);
      Associative(ShownScalar(cps[0]), Shown(cps[1..]), ReplaceBoundary(x));
    }
  }

  // Replacement distributes over well-formed texts.
  lemma ReplaceDistributes(a: Bytes, b: Bytes)
    requires WellFormed(a)
    ensures ReplaceBoundary(a + b) == ReplaceBoundary(a) + ReplaceBoundary(b)
  {
    var cps :| AllScalars(cps) && EncodeAll(cps) == a;
    ReplaceScalars(cps, b);
    ReplaceScalars(cps, []);
    assert a + [] == a;
  }
}

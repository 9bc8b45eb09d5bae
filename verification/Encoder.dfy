// Encoding a whole text: added-token literals are cut out leftmost, longest first; the spans
// between them are normalised, split into symbols and merged.

module Encoder {
  import opened SizeT
  import opened Utf8
  import opened Bpe
  import opened Tokenizer

  // ---------------------------------------------------------------- code points of a text

  lemma {:induction false} EncodeAllInjective(a: seq<nat>, b: seq<nat>)
    requires AllScalars(a) && AllScalars(b) && EncodeAll(a) == EncodeAll(b)
    ensures a == b
  {
    if a != [] && b != [] {
      FirstScalarUnique(EncodeAll(a), a[0], b[0]);
      SplitSuffix(EncodeAll(a), 0, Encode(a[0]), EncodeAll(a[1..]));
      SplitSuffix(EncodeAll(b), 0, Encode(b[0]), EncodeAll(b[1..]));
      EncodeAllInjective(a[1..], b[1..]);
      assert a == [a[0]] + a[1..] && b == [b[0]] + b[1..];
    }
  }

  ghost function Points(t: Bytes): (cps: seq<nat>)
    requires WellFormed(t)
    ensures AllScalars(cps) && EncodeAll(cps) == t
  {
    var cps :| AllScalars(cps) && EncodeAll(cps) == t;
    cps
  }

  lemma NormalizedPoints(t: Bytes)
    requires WellFormed(t)
    ensures WellFormed(Normalize(t))
    ensures Points(Normalize(t)) == [BOUNDARY_POINT] + NormalizePoints(Points(t))
  {
    var ncps := [BOUNDARY_POINT] + NormalizePoints(Points(t));
    NormalizeIsPointwise(Points(t));
    assert ncps[1..] == NormalizePoints(Points(t));
    assert Encode(BOUNDARY_POINT) == BOUNDARY;
    assert EncodeAll(ncps) == Normalize(t);
    EncodeAllInjective(ncps, Points(Normalize(t)));
  }

  lemma SplitInside(u: Bytes, rest: Bytes, o: nat)
    requires |u| <= o <= |u| + |rest|
    ensures (u + rest)[o..] == rest[o - |u|..]
    ensures (u + rest)[..o] == u + rest[..o - |u|]
    ensures (u + rest)[..o][|u|..] == rest[..o - |u|]
    ensures u <= (u + rest)[..o]
  {
  }

  lemma SliceOfSuffix(t: Bytes, start: nat, o: nat)
    requires start <= o <= |t|
    ensures t[start..][..o - start] == t[start..o]
    ensures t[start..][o - start..] == t[o..]
    ensures o < |t| ==> t[start..][o - start] == t[o]
  {
  }

  // A well-formed text splits into well-formed texts in front of any ASCII byte.
  lemma {:induction false} SplitAtAscii(cps: seq<nat>, t: Bytes, o: nat)
    requires AllScalars(cps) && EncodeAll(cps) == t
    requires o < |t| ==> t[o] < 0x80
    requires o <= |t|
    ensures WellFormed(t[..o]) && WellFormed(t[o..])
    decreases |cps|
  {
    if o == 0 {
      EmptyIsWellFormed();
      assert t[0..] == t && t[..0] == [];
    } else {
      var u, rest := Encode(cps[0]), EncodeAll(cps[1..]);
      EncodedBytes(cps[0]);
      assert forall i :: 1 <= i < |u| ==> t[i] == u[i] && t[i] >= 0x80;
      assert o >= |u|;
      SplitInside(u, rest, o);
      SplitAtAscii(cps[1..], rest, o - |u|);
      WellFormedTail(t[..o], cps[0]);
    }
  }

  // ---------------------------------------------------------------- added-token literals

  predicate LiteralAt(t: Bytes, o: nat, w: Bytes) {
    o + |w| <= |t| && t[o..o + |w|] == w
  }

  datatype Match = Match(length: nat, id: Id)

  // The longest added-token literal that starts at o.
  function MatchAt(t: Bytes, o: nat): (m: Option<Match>)
    ensures m.Some? <==> LiteralAt(t, o, UNK) || LiteralAt(t, o, BOS) || LiteralAt(t, o, EOS)
    ensures m.Some? ==> m.value.length > 0 && o + m.value.length <= |t| && m.value.id <= 2
    ensures m.Some? ==> t[o] == 0x3C && t[o + m.value.length - 1] == 0x3E
    ensures m.Some? ==> forall w :: w in {UNK, BOS, EOS} && LiteralAt(t, o, w) ==> |w| <= m.value.length
  {
    if LiteralAt(t, o, UNK) then Some(Match(|UNK|, 0))
    else if LiteralAt(t, o, EOS) then Some(Match(|EOS|, 2))
    else if LiteralAt(t, o, BOS) then Some(Match(|BOS|, 1))
    else None
  }

  // A literal gets the id of the piece that it spells.
  lemma MatchSpells(v: Vocabulary, t: Bytes, o: nat)
    requires Validated(v) && MatchAt(t, o).Some?
    ensures var m := MatchAt(t, o).value; o + m.length <= |t| && m.id < |v.pieces| && v.pieces[m.id] == t[o..o + m.length]
    ensures t[o..o + MatchAt(t, o).value.length] in {UNK, BOS, EOS}
  {
  }

  // The leftmost literal at or after o.
  function FirstLiteral(t: Bytes, o: nat): (r: Option<nat>)
    ensures r.Some? ==> o <= r.value < |t| && MatchAt(t, r.value).Some?
    ensures forall i :: o <= i < |t| && (r.Some? ==> i < r.value) ==> MatchAt(t, i).None?
    decreases |t| - o
  {
    if o >= |t| then None
    else if MatchAt(t, o).Some? then Some(o)
    else FirstLiteral(t, o + 1)
  }

  // ---------------------------------------------------------------- reference encoder

  ghost function EncodePlain(v: Vocabulary, t: Bytes): seq<Id>
    requires Validated(v) && WellFormed(t)
  {
    if t == [] then []
    else
      NormalizedPoints(t);
      Naive(v.merges, SymbolsOf(v, Points(Normalize(t))))
  }

  lemma LiteralIsAscii(t: Bytes, o: nat)
    requires MatchAt(t, o).Some?
    ensures t[o] < 0x80
    ensures forall i :: 0 <= i < MatchAt(t, o).value.length ==> t[o..][i] < 0x80
  {
    var n := MatchAt(t, o).value.length;
    var w := t[o..o + n];
    assert w == UNK || w == BOS || w == EOS;
    assert forall i :: 0 <= i < n ==> t[o..][i] == w[i];
  }

  lemma SpansAreWellFormed(t: Bytes, start: nat, o: nat)
    requires start <= o < |t| && WellFormed(t[start..]) && MatchAt(t, o).Some?
    ensures WellFormed(t[start..o])
    ensures WellFormed(t[o + MatchAt(t, o).value.length..])
  {
    var m := MatchAt(t, o).value;
    LiteralIsAscii(t, o);
    SliceOfSuffix(t, start, o);
    SplitAtAscii(Points(t[start..]), t[start..], o - start);
    AsciiPrefix(t[o..], m.length);
    SliceOfSuffix(t, o, o + m.length);
  }

  lemma {:induction false} AsciiPrefix(t: Bytes, n: nat)
    requires WellFormed(t) && n <= |t|
    requires forall i :: 0 <= i < n ==> t[i] < 0x80
    ensures WellFormed(t[n..])
    decreases n
  {
    if n == 0 {
      assert t[0..] == t;
    } else {
      assert StartsWith(t, t[0]);
      WellFormedTail(t, t[0]);
      AsciiPrefix(t[1..], n - 1);
      assert t[1..][n - 1..] == t[n..];
    }
  }

  ghost function EncodeFrom(v: Vocabulary, t: Bytes, start: nat): seq<Id>
    requires Validated(v) && start <= |t| && WellFormed(t[start..])
    decreases |t| - start
  {
    match FirstLiteral(t, start)
    case None => EncodePlain(v, t[start..])
    case Some(o) =>
      SpansAreWellFormed(t, start, o);
      var m := MatchAt(t, o).value;
      EncodePlain(v, t[start..o]) + [m.id] + EncodeFrom(v, t, o + m.length)
  }

  lemma EncodeFromEnd(v: Vocabulary, t: Bytes, start: nat)
    requires Validated(v) && start <= |t| && WellFormed(t[start..])
    requires FirstLiteral(t, start) == FirstLiteral(t, |t|)
    ensures EncodeFrom(v, t, start) == EncodePlain(v, t[start..])
  {
  }

  lemma EncodeFromStep(v: Vocabulary, t: Bytes, start: nat, o: nat, result: seq<Id>)
    requires Validated(v) && start <= o < |t| && WellFormed(t[start..])
    requires FirstLiteral(t, start) == Some(o)
    ensures WellFormed(t[start..o])
    ensures WellFormed(t[o + MatchAt(t, o).value.length..])
    ensures result + EncodeFrom(v, t, start)
         == ((result + EncodePlain(v, t[start..o])) + [MatchAt(t, o).value.id])
            + EncodeFrom(v, t, o + MatchAt(t, o).value.length)
  {
    SpansAreWellFormed(t, start, o);
    var m := MatchAt(t, o).value;
    var a, b, c := EncodePlain(v, t[start..o]), [m.id], EncodeFrom(v, t, o + m.length);
    Associative(result, a, b);
    Associative(result, a + b, c);
  }

  // ---------------------------------------------------------------- encoder methods

  datatype EncodeResult = Ids(ids: seq<Id>) | InvalidUtf8 | TooLarge | Internal

  // append_encode_plain_span, including the traversal of the merged list.
  method AppendPlainSpan(v: Vocabulary, plain: Bytes, result: seq<Id>) returns (r: EncodeResult)
    requires Validated(v) && WellFormed(plain)
    ensures r.Ids? || r.TooLarge?
    ensures r.Ids? ==> r.ids == result + EncodePlain(v, plain)
    ensures 9 * (|plain| + 1) <= MAX_HEAP ==> r.Ids?
  {
    if plain == [] {
      return Ids(result);
    }
    var normalized := NormalizeSpan(plain);
    NormalizedPoints(plain);
    NormalizedSize(plain);
    ghost var cps := Points(normalized);
    var nodes := new SymbolList();
    var outcome := AppendInitialSymbols(v, nodes, normalized, cps);
    if !outcome.Done? {
      return TooLarge;
    }
    outcome := nodes.ApplyMerges(v.merges);
    if !outcome.Done? {
      return TooLarge;
    }
    r := Collect(nodes.nodes, result, EncodePlain(v, plain));
  }

  // The traversal along `next`.
  method Collect(nodes: seq<Node>, result: seq<Id>, ghost ids: seq<Id>) returns (r: EncodeResult)
    requires Walk(nodes, Head(nodes), 0) == Some(ids)
    ensures r == Ids(result + ids)
  {
    var index := if nodes == [] then NO_INDEX else 0;
    var visited := 0;
    var collected := result;
    while index != NO_INDEX
      invariant 0 <= visited <= |nodes| && index >= 0
      invariant Walk(nodes, index, visited).Some?
      invariant collected + Walk(nodes, index, visited).value == result + ids
      decreases |nodes| - visited
    {
      if index >= |nodes| || !nodes[index].alive || visited >= |nodes| {
        return Internal;
      }
      collected := collected + [nodes[index].id];
      visited := visited + 1;
      index := nodes[index].next;
    }
    r := Ids(collected);
  }

  lemma {:induction false} NormalizedSize(t: Bytes)
    ensures |NormalizeBytes(t)| <= 3 * |t|
    ensures |Normalize(t)| <= 3 * (|t| + 1)
  {
    if t != [] { NormalizedSize(t[1..]); }
  }

  // The scan over the three added tokens at one offset.
  method FindLiteral(t: Bytes, o: nat) returns (m: Option<Match>)
    requires o < |t|
    ensures m == MatchAt(t, o)
  {
    var tokens := [(UNK, 0), (BOS, 1), (EOS, 2)];
    var matchLength, matchId := 0, 0;
    for k := 0 to |tokens|
      invariant matchLength >= 0 && matchId >= 0
      invariant k >= 1 && LiteralAt(t, o, UNK) ==> matchLength == |UNK| && matchId == 0
      invariant !(k >= 1 && LiteralAt(t, o, UNK)) && k >= 3 && LiteralAt(t, o, EOS) ==> matchLength == |EOS| && matchId == 2
      invariant !(k >= 1 && LiteralAt(t, o, UNK)) && !(k >= 3 && LiteralAt(t, o, EOS))
        ==> if k >= 2 && LiteralAt(t, o, BOS) then matchLength == |BOS| && matchId == 1 else matchLength == 0
    {
      var content := tokens[k].0;
      if |content| <= |t| - o && t[o..o + |content|] == content && |content| > matchLength {
        matchLength, matchId := |content|, tokens[k].1;
      }
    }
    m := if matchLength == 0 then None else Some(Match(matchLength, matchId));
  }

  // One added-token literal: the plain span in front of it, then its id.
  method CutLiteral(v: Vocabulary, text: Bytes, start: nat, offset: nat, m: Match, result: seq<Id>) returns (r: EncodeResult)
    requires Validated(v) && start <= offset < |text| && WellFormed(text[start..])
    requires FirstLiteral(text, start) == Some(offset) && MatchAt(text, offset) == Some(m)
    ensures r.Ids? || r.TooLarge?
    ensures WellFormed(text[offset + m.length..])
    ensures r.Ids? ==> r.ids + EncodeFrom(v, text, offset + m.length) == result + EncodeFrom(v, text, start)
    ensures 9 * (|text| + 1) <= MAX_HEAP ==> r.Ids?
  {
    hide *;
    EncodeFromStep(v, text, start, offset, result);
    r := AppendPlainSpan(v, text[start..offset], result);
    if r.Ids? {
      r := Ids(r.ids + [m.id]);
    }
  }

  // Impl::encode: never an internal error, and exactly the reference encoding.
  method EncodeText(v: Vocabulary, text: Bytes, addSpecial: bool) returns (r: EncodeResult)
    requires Validated(v)
    ensures r.InvalidUtf8? <==> !WellFormed(text)
    ensures !r.Internal?
    ensures r.Ids? ==> WellFormed(text[0..]) && r.ids == (if addSpecial then [BOS_ID] else []) + EncodeFrom(v, text, 0)
    ensures WellFormed(text) && 9 * (|text| + 1) <= MAX_HEAP ==> r.Ids?
  {
    hide EncodeFrom, WellFormed, Validated, MatchAt, LiteralAt;
    var valid := ValidateEncode(text);
    if !valid {
      return InvalidUtf8;
    }
    assert text[0..] == text;
    var result: seq<Id> := if addSpecial then [BOS_ID] else [];
    ghost var goal := result + EncodeFrom(v, text, 0);
    var plainStart, offset := 0, 0;
    while offset < |text|
      invariant 0 <= plainStart <= offset <= |text|
      invariant WellFormed(text[plainStart..])
      invariant FirstLiteral(text, plainStart) == FirstLiteral(text, offset)
      invariant result + EncodeFrom(v, text, plainStart) == goal
    {
      var m := FindLiteral(text, offset);
      if m.None? {
        offset := offset + 1;
        continue;
      }
      var cut := CutLiteral(v, text, plainStart, offset, m.value, result);
      if !cut.Ids? {
        return cut;
      }
      result := cut.ids;
      offset := offset + m.value.length;
      plainStart := offset;
    }
    EncodeFromEnd(v, text, plainStart);
    r := AppendPlainSpan(v, text[plainStart..], result);
  }
}

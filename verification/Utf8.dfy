// UTF-8: the tokenizer's second-byte-table validator and the chat validators' decode-then-range-check
// both accept exactly the concatenated encodings of Unicode scalar values (RFC 3629, sections 3 and 4).

module Utf8 {

  type byte = b: int | 0 <= b < 256

  ghost predicate IsScalar(cp: nat) {
    cp <= 0x10FFFF && !(0xD800 <= cp <= 0xDFFF)
  }

  // Section 3 of RFC 3629.
  ghost function Encode(cp: nat): (r: seq<byte>)
    requires IsScalar(cp)
    ensures 1 <= |r| <= 4
  {
    if cp < 0x80 then [cp]
    else if cp < 0x800 then [0xC0 + cp / 64, 0x80 + cp % 64]
    else if cp < 0x10000 then [0xE0 + cp / 64 / 64, 0x80 + cp / 64 % 64, 0x80 + cp % 64]
    else [0xF0 + cp / 64 / 64 / 64, 0x80 + cp / 64 / 64 % 64, 0x80 + cp / 64 % 64, 0x80 + cp % 64]
  }

  ghost predicate AllScalars(cps: seq<nat>) {
    forall i :: 0 <= i < |cps| ==> IsScalar(cps[i])
  }

  ghost function EncodeAll(cps: seq<nat>): seq<byte>
    requires AllScalars(cps)
  {
    if cps == [] then [] else Encode(cps[0]) + EncodeAll(cps[1..])
  }

  ghost predicate WellFormed(s: seq<byte>) {
    exists cps :: AllScalars(cps) && EncodeAll(cps) == s
  }

  // s starts with the encoding of cp.
  ghost predicate StartsWith(s: seq<byte>, cp: nat) {
    IsScalar(cp) && Encode(cp) <= s
  }

  // The code point that the payload bits of an n-byte sequence spell.
  function Payload(s: seq<byte>, n: nat): int
    requires 1 <= n <= 4 && n <= |s|
  {
    if n == 1 then s[0] as int
    else if n == 2 then Shift6(s[0] as int % 32, s[1])
    else if n == 3 then Shift6(Shift6(s[0] as int % 16, s[1]), s[2])
    else Shift6(Shift6(Shift6(s[0] as int % 8, s[1]), s[2]), s[3])
  }

  // (high << 6) | (low & 0x3F)
  function Shift6(high: int, low: byte): int {
    high * 64 + low % 64
  }

  lemma Join(high: int, low: int)
    requires 0 <= low < 64
    ensures (high * 64 + low) / 64 == high && (high * 64 + low) % 64 == low
  {
  }

  lemma ContinuationBits(digit: nat)
    requires digit < 64
    ensures (0x80 + digit) % 64 == digit
  {
  }

  lemma LeadBits(digit: nat)
    ensures digit < 32 ==> (0xC0 + digit) % 32 == digit
    ensures digit < 16 ==> (0xE0 + digit) % 16 == digit
    ensures digit < 8 ==> (0xF0 + digit) % 8 == digit
  {
  }

  lemma PayloadOfEncoding(cp: nat)
    requires IsScalar(cp)
    ensures TableLength(Encode(cp)[0]) == |Encode(cp)|
    ensures Payload(Encode(cp), |Encode(cp)|) == cp
  {
    var d0, d1, d2, d3 := cp % 64, cp / 64 % 64, cp / 64 / 64 % 64, cp / 64 / 64 / 64;
    ContinuationBits(d0);
    ContinuationBits(d1);
    ContinuationBits(d2);
    LeadBits(cp / 64);
    LeadBits(cp / 64 / 64);
    LeadBits(d3);
  }

  // The code is prefix-free.
  lemma FirstScalarUnique(s: seq<byte>, a: nat, b: nat)
    requires StartsWith(s, a) && StartsWith(s, b)
    ensures a == b
  {
    PayloadOfEncoding(a);
    PayloadOfEncoding(b);
    assert Encode(a)[0] == s[0] == Encode(b)[0];
    assert Encode(a) == s[..|Encode(a)|] == Encode(b);
  }

  // Dropping the first scalar keeps well-formedness, both ways.
  lemma WellFormedTail(s: seq<byte>, cp: nat)
    requires StartsWith(s, cp)
    ensures WellFormed(s) <==> WellFormed(s[|Encode(cp)|..])
  {
    var rest := s[|Encode(cp)|..];
    if WellFormed(s) {
      var cps :| AllScalars(cps) && EncodeAll(cps) == s;
      FirstScalarUnique(s, cp, cps[0]);
      assert EncodeAll(cps[1..]) == rest;
    }
    if WellFormed(rest) {
      var cps :| AllScalars(cps) && EncodeAll(cps) == rest;
      assert ([cp] + cps)[1..] == cps;
      assert EncodeAll([cp] + cps) == s;
    }
  }

  lemma WellFormedStarts(s: seq<byte>)
    requires WellFormed(s)
    ensures s == [] || exists cp :: StartsWith(s, cp)
  {
    var cps :| AllScalars(cps) && EncodeAll(cps) == s;
    if cps != [] { assert StartsWith(s, cps[0]); }
  }

  lemma EmptyIsWellFormed()
    ensures WellFormed([])
  {
    assert EncodeAll([]) == [];
  }

  // ---------------------------------------------------------------- table form

  // The length the lead-byte table assigns, 0 for no lead byte.
  function TableLength(lead: byte): nat {
    if lead <= 0x7F then 1
    else if 0xC2 <= lead <= 0xDF then 2
    else if 0xE0 <= lead <= 0xEF then 3
    else if 0xF0 <= lead <= 0xF4 then 4
    else 0
  }

  predicate TableSecond(lead: byte, second: byte) {
    && (if lead == 0xE0 then 0xA0 else if lead == 0xF0 then 0x90 else 0x80) <= second
    && second <= (if lead == 0xED then 0x9F else if lead == 0xF4 then 0x8F else 0xBF)
  }

  predicate Continuation(b: byte) {
    0x80 <= b <= 0xBF
  }

  // The sequence at the start of s passes the table tests.
  ghost predicate TableAccepts(s: seq<byte>) {
    && s != []
    && var n := TableLength(s[0]);
    && 0 < n <= |s|
    && (n > 1 ==> TableSecond(s[0], s[1]))
    && forall i :: 1 <= i < n ==> Continuation(s[i])
  }

  lemma TableAcceptsScalar(s: seq<byte>)
    requires TableAccepts(s)
    ensures Payload(s, TableLength(s[0])) >= 0
    ensures StartsWith(s, Payload(s, TableLength(s[0])))
    ensures |Encode(Payload(s, TableLength(s[0])))| == TableLength(s[0])
  {
    var n := TableLength(s[0]);
    assert forall i :: 1 <= i < n ==> Continuation(s[i]);
    if n == 2 { TableScalar2(s, s[0] - 0xC0, s[1] - 0x80); }
    if n == 3 { TableScalar3(s, s[0] - 0xE0, s[1] - 0x80, s[2] - 0x80); }
    if n == 4 { TableScalar4(s, s[0] - 0xF0, s[1] - 0x80, s[2] - 0x80, s[3] - 0x80); }
  }

  lemma TableScalar2(s: seq<byte>, a: nat, b: nat)
    requires |s| >= 2 && s[0] == 0xC0 + a && s[1] == 0x80 + b && 2 <= a < 32 && b < 64
    ensures Payload(s, 2) >= 0 && StartsWith(s, Payload(s, 2)) && |Encode(Payload(s, 2))| == 2
  {
    ContinuationBits(b);
    LeadBits(a);
    Join(a, b);
  }

  lemma TableScalar3(s: seq<byte>, a: nat, b: nat, c: nat)
    requires |s| >= 3 && s[0] == 0xE0 + a && s[1] == 0x80 + b && s[2] == 0x80 + c
    requires a < 16 && b < 64 && c < 64 && TableSecond(s[0], s[1])
    ensures Payload(s, 3) >= 0 && StartsWith(s, Payload(s, 3)) && |Encode(Payload(s, 3))| == 3
  {
    ContinuationBits(b);
    ContinuationBits(c);
    LeadBits(a);
    Join(a, b);
    Join(a * 64 + b, c);
  }

  lemma TableScalar4(s: seq<byte>, a: nat, b: nat, c: nat, d: nat)
    requires |s| >= 4 && s[0] == 0xF0 + a && s[1] == 0x80 + b && s[2] == 0x80 + c && s[3] == 0x80 + d
    requires a < 5 && b < 64 && c < 64 && d < 64 && TableSecond(s[0], s[1])
    ensures Payload(s, 4) >= 0 && StartsWith(s, Payload(s, 4)) && |Encode(Payload(s, 4))| == 4
  {
    ContinuationBits(b);
    ContinuationBits(c);
    ContinuationBits(d);
    LeadBits(a);
    Join(a, b);
    Join(a * 64 + b, c);
    Join((a * 64 + b) * 64 + c, d);
  }

  lemma ScalarIsTableAccepted(s: seq<byte>, cp: nat)
    requires StartsWith(s, cp)
    ensures TableAccepts(s) && TableLength(s[0]) == |Encode(cp)|
  {
    var e := Encode(cp);
    assert forall i :: 0 <= i < |e| ==> s[i] == e[i];
  }

  // ---------------------------------------------------------------- arithmetic form

  // Lead and continuation shapes, then a range check on the decoded code point.
  ghost predicate ArithmeticAccepts(s: seq<byte>) {
    && s != []
    && var n := TableLength(s[0]);
    && 0 < n <= |s|
    && (forall i :: 1 <= i < n ==> s[i] / 64 == 2)
    && (n > 1 ==> InRange(n, Payload(s, n)))
  }

  predicate InRange(n: nat, cp: int) {
    !((n == 3 && cp < 0x800) || (n == 4 && cp < 0x10000) || cp > 0x10FFFF || 0xD800 <= cp <= 0xDFFF)
  }

  // The two forms accept the same leading sequences.
  lemma AcceptancesAgree(s: seq<byte>)
    ensures TableAccepts(s) <==> ArithmeticAccepts(s)
  {
    if s != [] {
      var n := TableLength(s[0]);
      assert forall i :: 0 <= i < |s| ==> (Continuation(s[i]) <==> s[i] / 64 == 2);
      if 1 < n <= |s| && forall i :: 1 <= i < n ==> Continuation(s[i]) {
        assert Continuation(s[1]);
        assert n > 2 ==> Continuation(s[2]);
        assert n > 3 ==> Continuation(s[3]);
        assert TableSecond(s[0], s[1]) <==> InRange(n, Payload(s, n));
      }
    }
  }

  // One validator step: accept and move on, or reject for good.
  lemma ValidatorStep(s: seq<byte>)
    requires s != []
    ensures TableAccepts(s) ==> (WellFormed(s) <==> WellFormed(s[TableLength(s[0])..]))
    ensures !TableAccepts(s) ==> !WellFormed(s)
  {
    if TableAccepts(s) {
      TableAcceptsScalar(s);
      WellFormedTail(s, Payload(s, TableLength(s[0])));
    } else if WellFormed(s) {
      WellFormedStarts(s);
      var cp :| StartsWith(s, cp);
      ScalarIsTableAccepted(s, cp);
    }
  }

  // ---------------------------------------------------------------- validator loops

  // validate_encode_utf8; false stands for its invalid_argument.
  method ValidateEncode(text: seq<byte>) returns (ok: bool)
    ensures ok <==> WellFormed(text)
  {
    EmptyIsWellFormed();
    var offset := 0;
    while offset < |text|
      invariant 0 <= offset <= |text|
      invariant WellFormed(text) <==> WellFormed(text[offset..])
    {
      ghost var s := text[offset..];
      ValidatorStep(s);
      var lead := text[offset];
      var length := 0;
      if lead <= 0x7F {
        length := 1;
      } else if lead >= 0xC2 && lead <= 0xDF {
        length := 2;
      } else if lead == 0xE0 {
        length := 3;
      } else if (lead >= 0xE1 && lead <= 0xEC) || lead == 0xED || (lead >= 0xEE && lead <= 0xEF) {
        length := 3;
      } else if lead == 0xF0 {
        length := 4;
      } else if lead >= 0xF1 && lead <= 0xF3 {
        length := 4;
      } else if lead == 0xF4 {
        length := 4;
      } else {
        return false;
      }
      if |text| - offset < length {
        return false;
      }
      if length > 1 {
        var second := text[offset + 1];
        assert second == s[1];
        var secondMin, secondMax := 0x80, 0xBF;
        if lead == 0xE0 {
          secondMin := 0xA0;
        } else if lead == 0xED {
          secondMax := 0x9F;
        } else if lead == 0xF0 {
          secondMin := 0x90;
        } else if lead == 0xF4 {
          secondMax := 0x8F;
        }
        if second < secondMin || second > secondMax {
          return false;
        }
      }
      var index := 1;
      while index < length
        invariant 1 <= index <= length
        invariant forall i :: 1 <= i < index ==> Continuation(s[i])
      {
        assert text[offset + index] == s[index];
        if text[offset + index] < 0x80 || text[offset + index] > 0xBF {
          return false;
        }
        index := index + 1;
      }
      assert TableAccepts(s);
      offset := offset + length;
    }
    ok := true;
  }

  // The multi-byte case of the chat validators: the length of the sequence at offset, 0 when it is rejected.
  method DecodeSequence(text: seq<byte>, offset: nat) returns (length: nat)
    requires offset < |text| && text[offset] > 0x7F
    ensures length > 0 <==> ArithmeticAccepts(text[offset..])
    ensures length > 0 ==> length == TableLength(text[offset])
  {
    ghost var s := text[offset..];
    var lead := text[offset];
    var codePoint := 0;
    if lead >= 0xC2 && lead <= 0xDF {
      length, codePoint := 2, lead as int % 32;
    } else if lead >= 0xE0 && lead <= 0xEF {
      length, codePoint := 3, lead as int % 16;
    } else if lead >= 0xF0 && lead <= 0xF4 {
      length, codePoint := 4, lead as int % 8;
    } else {
      return 0;
    }
    if length > |text| - offset {
      return 0;
    }
    var index := 1;
    while index < length
      invariant 1 <= index <= length
      invariant forall i :: 1 <= i < index ==> s[i] / 64 == 2
      invariant codePoint == PartialPayload(s, length, index)
    {
      var continuation := text[offset + index];
      assert continuation == s[index];
      if continuation / 64 != 2 {
        return 0;
      }
      codePoint := Shift6(codePoint, continuation);
      index := index + 1;
    }
    PartialIsPayload(s, length);
    if (length == 3 && codePoint < 0x800) || (length == 4 && codePoint < 0x10000) || codePoint > 0x10FFFF
       || (codePoint >= 0xD800 && codePoint <= 0xDFFF) {
      return 0;
    }
  }

  // validate_message_content; false stands for its invalid_argument.
  method ValidateContent(content: seq<byte>) returns (ok: bool)
    ensures ok <==> WellFormed(content)
  {
    EmptyIsWellFormed();
    var offset := 0;
    while offset < |content|
      invariant 0 <= offset <= |content|
      invariant WellFormed(content) <==> WellFormed(content[offset..])
    {
      ValidatorStep(content[offset..]);
      AcceptancesAgree(content[offset..]);
      if content[offset] <= 0x7F {
        offset := offset + 1;
        continue;
      }
      var length := DecodeSequence(content, offset);
      if length == 0 {
        return false;
      }
      offset := offset + length;
    }
    ok := true;
  }

  // validate_utf8_and_line_endings: the same set without strings holding a carriage return.
  method ValidateTemplate(source: seq<byte>) returns (ok: bool)
    ensures ok <==> WellFormed(source) && 0x0D !in source
  {
    EmptyIsWellFormed();
    var offset := 0;
    while offset < |source|
      invariant 0 <= offset <= |source|
      invariant WellFormed(source) <==> WellFormed(source[offset..])
      invariant 0x0D !in source[..offset]
    {
      ghost var s := source[offset..];
      ValidatorStep(s);
      AcceptancesAgree(s);
      if source[offset] == 0x0D {
        return false;
      }
      if source[offset] <= 0x7F {
        offset := offset + 1;
        continue;
      }
      var length := DecodeSequence(source, offset);
      if length == 0 {
        return false;
      }
      assert source[..offset + length] == source[..offset] + s[..length];
      offset := offset + length;
    }
    assert source[..offset] == source;
    ok := true;
  }

  // The code point accumulated after the first `taken` bytes of a sequence of n.
  ghost function PartialPayload(s: seq<byte>, n: nat, taken: nat): int
    requires 2 <= n <= 4 && 1 <= taken <= n <= |s|
  {
    if taken == 1 then (if n == 2 then s[0] as int % 32 else if n == 3 then s[0] as int % 16 else s[0] as int % 8)
    else Shift6(PartialPayload(s, n, taken - 1), s[taken - 1])
  }

  lemma PartialIsPayload(s: seq<byte>, n: nat)
    requires 2 <= n <= 4 && n <= |s|
    ensures PartialPayload(s, n, n) == Payload(s, n)
  {
    assert n > 2 ==> PartialPayload(s, n, 2) == Shift6(PartialPayload(s, n, 1), s[1]);
    assert n > 3 ==> PartialPayload(s, n, 3) == Shift6(PartialPayload(s, n, 2), s[2]);
  }
}

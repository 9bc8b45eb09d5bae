// Lexing of a chat template into text, output and block tokens, and the trimming of the line
// breaks and leading blanks around blocks. Strings hold one byte per character.

module ChatLexer {
  import opened SizeT

  datatype TokenKind = TextToken | OutputToken | BlockToken

  datatype Token = Token(kind: TokenKind, text: string, offset: nat)

  // ---------------------------------------------------------------- tags

  predicate At(s: string, i: nat, w: string) {
    i + |w| <= |s| && s[i..i + |w|] == w
  }

  // The first closing delimiter outside string literals, from offset i on.
  function TagEnd(s: string, i: nat, quote: Option<char>, escaped: bool, closing: string): (r: Option<nat>)
    requires |closing| == 2
    ensures r.Some? ==> i <= r.value && At(s, r.value, closing)
    decreases |s| - i
  {
    if i + 1 >= |s| then None
    else if quote.Some? then
      if escaped then TagEnd(s, i + 1, quote, false, closing)
      else if s[i] == '\\' then TagEnd(s, i + 1, quote, true, closing)
      else TagEnd(s, i + 1, if s[i] == quote.value then None else quote, false, closing)
    else if s[i] == '\'' || s[i] == '"' then TagEnd(s, i + 1, Some(s[i]), false, closing)
    else if At(s, i, closing) then Some(i)
    else TagEnd(s, i + 1, None, false, closing)
  }

  method FindTagEnd(source: string, begin: nat, closing: string) returns (r: Option<nat>)
    requires |closing| == 2
    ensures r == TagEnd(source, begin, None, false, closing)
    ensures r.Some? ==> begin <= r.value && r.value + 2 <= |source|
  {
    var quote: Option<char> := None;
    var escaped := false;
    var offset := begin;
    while offset + 1 < |source|
      invariant begin <= offset
      invariant quote.None? ==> !escaped
      invariant TagEnd(source, begin, None, false, closing) == TagEnd(source, offset, quote, escaped, closing)
      decreases |source| - offset
    {
      var value := source[offset];
      if quote.Some? {
        if escaped {
          escaped := false;
        } else if value == '\\' {
          escaped := true;
        } else if value == quote.value {
          quote := None;
        }
      } else if value == '\'' || value == '"' {
        quote := Some(value);
      } else if At(source, offset, closing) {
        return Some(offset);
      }
      offset := offset + 1;
    }
    r := None;
  }

  // ---------------------------------------------------------------- lexing

  function FindBrace(s: string, i: nat): (r: nat)
    requires i <= |s|
    ensures i <= r <= |s| && (r < |s| ==> s[r] == '{')
    ensures forall k :: i <= k < r ==> s[k] != '{'
    decreases |s| - i
  {
    if i == |s| || s[i] == '{' then i else FindBrace(s, i + 1)
  }

  function Closing(output: bool): string {
    if output then "}}" else "%}"
  }

  function TextFrom(s: string, i: nat, j: nat): seq<Token>
    requires i <= j <= |s|
  {
    if i < j then [Token(TextToken, s[i..j], i)] else []
  }

  function Tag(s: string, open: nat, close: nat, output: bool): Token
    requires open + 2 <= close <= |s|
  {
    Token(if output then OutputToken else BlockToken, s[open + 2..close], open)
  }

  // Where the tag opening at `open` closes; whitespace control is refused on both sides.
  function LexTag(s: string, open: nat, output: bool): (r: Option<nat>)
    requires open < |s|
    ensures r.Some? ==> open + 2 <= r.value && At(s, r.value, Closing(output))
  {
    if open + 2 < |s| && s[open + 2] == '-' then None
    else
      var close := TagEnd(s, open + 2, None, false, Closing(output));
      if close.None? || (close.value > open + 2 && s[close.value - 1] == '-') then None else close
  }

  datatype Lexed = Refused | Lexed(tokens: seq<Token>, next: nat)

  // The tokens up to the end of the next tag. A brace that opens no tag belongs to the text up to the next brace.
  function LexStep(s: string, cursor: nat): (r: Lexed)
    requires cursor < |s|
    ensures r.Lexed? ==> cursor < r.next <= |s|
  {
    var open := FindBrace(s, cursor);
    if open == |s| then Lexed(TextFrom(s, cursor, |s|), |s|)
    else if At(s, open, "{{") || At(s, open, "{%") then
      var output := At(s, open, "{{");
      var close := LexTag(s, open, output);
      if close.None? then Refused else Lexed(TextFrom(s, cursor, open) + [Tag(s, open, close.value, output)], close.value + 2)
    else if At(s, open, "{#") then Refused
    else var end := FindBrace(s, open + 1); Lexed(TextFrom(s, cursor, end), end)
  }

  function Prepend(ts: seq<Token>, rest: Option<seq<Token>>): Option<seq<Token>> {
    if rest.None? then None else Some(ts + rest.value)
  }

  function LexFrom(s: string, cursor: nat): Option<seq<Token>>
    requires cursor <= |s|
    decreases |s| - cursor
  {
    if cursor == |s| then Some([])
    else
      var step := LexStep(s, cursor);
      if step.Refused? then None else Prepend(step.tokens, LexFrom(s, step.next))
  }

  function Raw(t: Token): string {
    match t.kind
    case TextToken => t.text
    case OutputToken => "{{" + t.text + "}}"
    case BlockToken => "{%" + t.text + "%}"
  }

  function RawAll(ts: seq<Token>): string {
    if ts == [] then "" else Raw(ts[0]) + RawAll(ts[1..])
  }

  lemma {:induction false} RawConcat(a: seq<Token>, b: seq<Token>)
    ensures RawAll(a + b) == RawAll(a) + RawAll(b)
  {
    if a == [] {
      assert a + b == b;
    } else {
      assert (a + b)[1..] == a[1..] + b;
      RawConcat(a[1..], b);
    }
  }

  lemma RawText(s: string, i: nat, j: nat)
    requires i <= j <= |s|
    ensures RawAll(TextFrom(s, i, j)) == s[i..j]
  {
    if i < j { assert TextFrom(s, i, j)[1..] == []; }
  }

  lemma RawSingle(t: Token)
    ensures RawAll([t]) == Raw(t)
  {
    assert [t][1..] == [];
    assert RawAll([t]) == Raw(t) + RawAll([]);
  }

  lemma RawTextAndTag(s: string, cursor: nat, open: nat, close: nat, output: bool)
    requires cursor <= open && open + 2 <= close && At(s, open, if output then "{{" else "{%") && At(s, close, Closing(output))
    ensures RawAll(TextFrom(s, cursor, open) + [Tag(s, open, close, output)]) == s[cursor..close + 2]
  {
    hide RawAll, Raw, TextFrom, Tag;
    RawText(s, cursor, open);
    RawTag(s, open, close, output);
    RawConcat(TextFrom(s, cursor, open), [Tag(s, open, close, output)]);
    assert s[cursor..close + 2] == s[cursor..open] + s[open..close + 2];
  }

  lemma RawTag(s: string, open: nat, close: nat, output: bool)
    requires open + 2 <= close && At(s, open, if output then "{{" else "{%") && At(s, close, Closing(output))
    ensures RawAll([Tag(s, open, close, output)]) == s[open..close + 2]
  {
    var t, inner := Tag(s, open, close, output), s[open + 2..close];
    RawSingle(t);
    assert s[open..close + 2] == s[open..open + 2] + inner + s[close..close + 2];
    assert Raw(t) == if output then "{{" + inner + "}}" else "{%" + inner + "%}";
  }

  lemma StepIsLossless(s: string, cursor: nat)
    requires cursor < |s| && LexStep(s, cursor).Lexed?
    ensures RawAll(LexStep(s, cursor).tokens) == s[cursor..LexStep(s, cursor).next]
  {
    var open := FindBrace(s, cursor);
    hide RawAll, LexTag, TextFrom, Tag;
    if open == |s| {
      RawText(s, cursor, |s|);
    } else if At(s, open, "{{") || At(s, open, "{%") {
      var output := At(s, open, "{{");
      RawTextAndTag(s, cursor, open, LexTag(s, open, output).value, output);
    } else {
      RawText(s, cursor, FindBrace(s, open + 1));
    }
  }

  // Lexing loses nothing: the tokens with their delimiters spell the template.
  lemma {:induction false} LexIsLossless(s: string, cursor: nat)
    requires cursor <= |s| && LexFrom(s, cursor).Some?
    ensures RawAll(LexFrom(s, cursor).value) == s[cursor..]
    decreases |s| - cursor
  {
    if cursor < |s| {
      hide LexStep, RawAll;
      var step := LexStep(s, cursor);
      StepIsLossless(s, cursor);
      LexIsLossless(s, step.next);
      RawConcat(step.tokens, LexFrom(s, step.next).value);
      SliceJoin(s, cursor, step.next);
    }
  }

  lemma SliceJoin(s: string, i: nat, j: nat)
    requires i <= j <= |s|
    ensures s[i..] == s[i..j] + s[j..]
  {
  }

  // ---------------------------------------------------------------- trimming

  predicate Blank(c: char) {
    c == ' ' || c == '\t'
  }

  // Start of the last line.
  function LastLine(s: string): (r: nat)
    ensures r <= |s| && (r > 0 ==> s[r - 1] == '\n')
    ensures forall k :: r <= k < |s| ==> s[k] != '\n'
  {
    if s == "" then 0 else if s[|s| - 1] == '\n' then |s| else LastLine(s[..|s| - 1])
  }

  // Text in front of a block: blanks that fill the start of the block's line are dropped.
  function StripLine(s: string, first: bool): string {
    var r := LastLine(s);
    if (r > 0 || first) && forall k :: r <= k < |s| ==> Blank(s[k]) then s[..r] else s
  }

  function DropNewline(s: string): string {
    if s != "" && s[0] == '\n' then s[1..] else s
  }

  predicate IsBlockAt(ts: seq<Token>, i: int) {
    0 <= i < |ts| && ts[i].kind.BlockToken?
  }

  // What trimming makes of token i: only its own text and its neighbours matter.
  function Stripped(ts: seq<Token>, i: nat): Token
    requires i < |ts|
  {
    if ts[i].kind.TextToken? && IsBlockAt(ts, i + 1) then ts[i].(text := StripLine(ts[i].text, ts[i].offset == 0)) else ts[i]
  }

  function Trimmed(ts: seq<Token>, i: nat): Token
    requires i < |ts|
  {
    var t := Stripped(ts, i);
    if ts[i].kind.TextToken? && IsBlockAt(ts, i - 1) then t.(text := DropNewline(t.text)) else t
  }

  function Trim(ts: seq<Token>): (r: seq<Token>)
    ensures |r| == |ts|
  {
    seq(|ts|, i requires 0 <= i < |ts| => Trimmed(ts, i))
  }

  // A line starts at k and only blanks follow.
  ghost predicate BlankLine(s: string, first: bool, k: nat) {
    && k <= |s| && (if k == 0 then first else s[k - 1] == '\n')
    && forall j :: k <= j < |s| ==> s[j] == ' ' || s[j] == '\t'
  }

  // What is left of s in front of a block: a blank last line is dropped, its line break is not.
  ghost predicate WithoutBlankLine(s: string, first: bool, r: string) {
    if exists k: nat :: BlankLine(s, first, k) then exists k: nat :: BlankLine(s, first, k) && r == s[..k] else r == s
  }

  // What is left of s behind a block.
  predicate WithoutBreak(s: string, r: string) {
    if s != "" && s[0] == '\n' then s == "\n" + r else r == s
  }

  lemma StripLineMeans(s: string, first: bool)
    ensures WithoutBlankLine(s, first, StripLine(s, first))
  {
    var r := LastLine(s);
    if k: nat :| BlankLine(s, first, k) {
      assert k <= r;
      assert k == r;
    } else {
      assert !BlankLine(s, first, r);
    }
  }

  // Trimming changes a text token only: behind a block it loses one leading line break, and before
  // that, in front of a block, the blanks that fill its last line.
  lemma TrimMeans(ts: seq<Token>, i: nat) returns (middle: string)
    requires i < |ts|
    ensures Trim(ts)[i].kind == ts[i].kind && Trim(ts)[i].offset == ts[i].offset
    ensures !ts[i].kind.TextToken? ==> Trim(ts)[i] == ts[i]
    ensures ts[i].kind.TextToken? ==>
      && (if i + 1 < |ts| && ts[i + 1].kind.BlockToken? then WithoutBlankLine(ts[i].text, ts[i].offset == 0, middle) else middle == ts[i].text)
      && (if i > 0 && ts[i - 1].kind.BlockToken? then WithoutBreak(middle, Trim(ts)[i].text) else Trim(ts)[i].text == middle)
  {
    middle := Stripped(ts, i).text;
    StripLineMeans(ts[i].text, ts[i].offset == 0);
  }

  // Pop trailing blanks from a text whose last line is blank.
  method StripBlanks(s: string, first: bool) returns (r: string)
    ensures r == StripLine(s, first)
  {
    var start := LastLine(s);
    var leading := start > 0 || first;
    var position := start;
    while leading && position < |s|
      invariant start <= position <= |s|
      invariant leading ==> (start > 0 || first) && forall k :: start <= k < position ==> Blank(s[k])
      invariant !leading ==> !((start > 0 || first) && forall k :: start <= k < |s| ==> Blank(s[k]))
      decreases |s| - position, leading
    {
      leading := Blank(s[position]);
      position := position + 1;
    }
    r := s;
    if leading {
      while r != "" && Blank(r[|r| - 1])
        invariant start <= |r| <= |s| && r == s[..|r|]
        decreases |r|
      {
        r := r[..|r| - 1];
      }
      assert |r| == start;
    }
  }

  method TrimBlocks(tokens: seq<Token>) returns (r: seq<Token>)
    ensures r == Trim(tokens)
  {
    r := tokens;
    for index := 0 to |tokens|
      invariant |r| == |tokens|
      invariant forall i :: 0 <= i < |tokens| ==>
        r[i] == if i + 1 < index then Stripped(tokens, i) else tokens[i]
    {
      if tokens[index].kind.BlockToken? && index > 0 && r[index - 1].kind.TextToken? {
        var text := StripBlanks(r[index - 1].text, r[index - 1].offset == 0);
        r := r[index - 1 := r[index - 1].(text := text)];
      }
    }
    assert forall i :: 0 <= i < |tokens| ==> r[i] == Stripped(tokens, i);
    for index := 0 to |tokens|
      invariant |r| == |tokens|
      invariant forall i :: 0 <= i < |tokens| ==> r[i] == if i <= index then Trimmed(tokens, i) else Stripped(tokens, i)
    {
      if r[index].kind.BlockToken? && index + 1 < |r| && r[index + 1].kind.TextToken? && r[index + 1].text != ""
          && r[index + 1].text[0] == '\n' {
        r := r[index + 1 := r[index + 1].(text := r[index + 1].text[1..])];
      }
    }
    assert r == Trim(tokens);
  }

  lemma PrependTwice(a: seq<Token>, b: seq<Token>, rest: Option<seq<Token>>)
    ensures Prepend(a, Prepend(b, rest)) == Prepend(a + b, rest)
  {
    if rest.Some? { assert a + (b + rest.value) == a + b + rest.value; }
  }

  // One round of the lexing loop.
  method NextTokens(source: string, cursor: nat) returns (r: Lexed)
    requires cursor < |source|
    ensures r == LexStep(source, cursor)
  {
    hide At, TextFrom, Tag;
    var open := FindBrace(source, cursor);
    if open == |source| {
      return Lexed(TextFrom(source, cursor, open), open);
    }
    var isOutput, isBlock := At(source, open, "{{"), At(source, open, "{%");
    if !isOutput && !isBlock {
      if At(source, open, "{#") {
        return Refused;
      }
      var end := FindBrace(source, open + 1);
      return Lexed(TextFrom(source, cursor, end), end);
    }
    if open + 2 < |source| && source[open + 2] == '-' {
      return Refused;
    }
    var close := FindTagEnd(source, open + 2, if isOutput then "}}" else "%}");
    if close.None? || (close.value > open + 2 && source[close.value - 1] == '-') {
      return Refused;
    }
    r := Lexed(TextFrom(source, cursor, open) + [Tag(source, open, close.value, isOutput)], close.value + 2);
  }

  method TokenizeTemplate(source: string) returns (r: Option<seq<Token>>)
    ensures r == if LexFrom(source, 0).None? then None else Some(Trim(LexFrom(source, 0).value))
  {
    var tokens: seq<Token> := [];
    var cursor := 0;
    hide LexStep, Trim;
    assert forall rest: seq<Token> :: tokens + rest == rest;
    while cursor < |source|
      invariant 0 <= cursor <= |source|
      invariant LexFrom(source, 0) == Prepend(tokens, LexFrom(source, cursor))
      decreases |source| - cursor
    {
      var step := NextTokens(source, cursor);
      if step.Refused? {
        return None;
      }
      PrependTwice(tokens, step.tokens, LexFrom(source, step.next));
      tokens, cursor := tokens + step.tokens, step.next;
    }
    assert tokens + [] == tokens;
    var trimmed := TrimBlocks(tokens);
    r := Some(trimmed);
  }
}

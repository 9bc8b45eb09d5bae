// Templates spelled out in pieces, for any spacing, kind of quotes and form of field access, and read
// back by the lexer.

module ChatSource {
  import opened SizeT
  import opened ChatLexer
  import opened ChatExpression

  // ---------------------------------------------------------------- tag texts in chunks

  // A stretch without quotes and braces, or a string literal.
  datatype Chunk = Plain(text: string) | Quoted(value: string)

  // The blanks between and inside the parts of an expression, the kind of quotes, and the field access.
  datatype Style = Style(gap: string, inner: string, quote: char, dotted: bool)

  predicate Blanks(s: string) {
    forall i :: 0 <= i < |s| ==> s[i] == ' ' || s[i] == '\t' || s[i] == '\n' || s[i] as int == 0x0B || s[i] as int == 0x0C
  }

  predicate StyleOk(y: Style) {
    y.gap != "" && Blanks(y.gap) && Blanks(y.inner) && (y.quote == '\'' || y.quote == '"')
  }

  function SpellChunk(y: Style, c: Chunk): string {
    match c
    case Plain(text) => text
    case Quoted(value) => [y.quote] + QuoteAll(value) + [y.quote]
  }

  function Spell(y: Style, cs: seq<Chunk>): string {
    if cs == [] then "" else SpellChunk(y, cs[0]) + Spell(y, cs[1..])
  }

  predicate PlainOk(text: string) {
    forall i :: 0 <= i < |text| ==> text[i] != '\'' && text[i] != '"' && text[i] != '{' && text[i] != '}' && text[i] != '%'
  }

  ghost predicate ChunksOk(cs: seq<Chunk>) {
    forall i :: 0 <= i < |cs| && cs[i].Plain? ==> PlainOk(cs[i].text)
  }

  lemma {:induction false} SpellConcat(y: Style, a: seq<Chunk>, b: seq<Chunk>)
    ensures Spell(y, a + b) == Spell(y, a) + Spell(y, b)
  {
    if a == [] {
      assert a + b == b;
    } else {
      assert (a + b)[1..] == a[1..] + b;
      SpellConcat(y, a[1..], b);
    }
  }

  // What stands at p splits where its parts meet.
  lemma AtParts(s: string, p: nat, a: string, b: string)
    requires At(s, p, a + b)
    ensures At(s, p, a) && At(s, p + |a|, b)
  {
    var w, x, z := s[p..p + |a + b|], s[p..p + |a|], s[p + |a|..p + |a| + |b|];
    assert w == a + b;
    forall i | 0 <= i < |a| ensures x[i] == a[i] { assert w[i] == s[p + i]; }
    forall i | 0 <= i < |b| ensures z[i] == b[i] { assert w[|a| + i] == s[p + |a| + i]; }
  }

  lemma AtChar(s: string, p: nat, w: string, i: nat)
    requires At(s, p, w) && i < |w|
    ensures s[p + i] == w[i]
  {
    assert s[p..p + |w|][i] == s[p + i];
  }

  // ---------------------------------------------------------------- the end of a tag

  lemma {:induction false} PlainEnds(s: string, i: nat, text: string, closing: string)
    requires At(s, i, text) && PlainOk(text) && (closing == "}}" || closing == "%}") && i + |text| + 2 <= |s|
    ensures TagEnd(s, i, None, false, closing) == TagEnd(s, i + |text|, None, false, closing)
    decreases |text|
  {
    if text != "" {
      AtChar(s, i, text, 0);
      assert text == [text[0]] + text[1..];
      AtParts(s, i, [text[0]], text[1..]);
      assert At(s, i, closing) ==> s[i] == closing[0] by { if At(s, i, closing) { AtChar(s, i, closing, 0); } }
      PlainEnds(s, i + 1, text[1..], closing);
    }
  }

  // One character of a literal's text, in its escaped form.
  lemma QuoteStep(s: string, i: nat, c: char, quote: char, closing: string)
    requires At(s, i, Quote(c)) && (quote == '\'' || quote == '"') && |closing| == 2 && i + |Quote(c)| + 2 <= |s|
    ensures TagEnd(s, i, Some(quote), false, closing) == TagEnd(s, i + |Quote(c)|, Some(quote), false, closing)
  {
    AtChar(s, i, Quote(c), 0);
    if |Quote(c)| == 2 {
      assert TagEnd(s, i, Some(quote), false, closing) == TagEnd(s, i + 1, Some(quote), true, closing);
    }
  }

  lemma QuoteCloses(s: string, i: nat, quote: char, closing: string)
    requires At(s, i, [quote]) && (quote == '\'' || quote == '"') && |closing| == 2 && i + 3 <= |s|
    ensures TagEnd(s, i, Some(quote), false, closing) == TagEnd(s, i + 1, None, false, closing)
  {
    AtChar(s, i, [quote], 0);
  }

  lemma {:induction false} LiteralEnds(s: string, i: nat, value: string, quote: char, closing: string)
    requires At(s, i, QuoteAll(value) + [quote]) && (quote == '\'' || quote == '"') && |closing| == 2 && i + |QuoteAll(value)| + 3 <= |s|
    ensures TagEnd(s, i, Some(quote), false, closing) == TagEnd(s, i + |QuoteAll(value)| + 1, None, false, closing)
    decreases |value|
  {
    hide TagEnd, At, Quote;
    if value == "" {
      assert QuoteAll(value) + [quote] == [quote];
      QuoteCloses(s, i, quote, closing);
    } else {
      var q := Quote(value[0]);
      assert QuoteAll(value) == q + QuoteAll(value[1..]);
      assert QuoteAll(value) + [quote] == q + (QuoteAll(value[1..]) + [quote]);
      AtParts(s, i, q, QuoteAll(value[1..]) + [quote]);
      QuoteStep(s, i, value[0], quote, closing);
      LiteralEnds(s, i + |q|, value[1..], quote, closing);
    }
  }

  lemma QuoteOpens(s: string, i: nat, quote: char, closing: string)
    requires At(s, i, [quote]) && (quote == '\'' || quote == '"') && |closing| == 2 && i + 3 <= |s|
    ensures TagEnd(s, i, None, false, closing) == TagEnd(s, i + 1, Some(quote), false, closing)
  {
    AtChar(s, i, [quote], 0);
  }

  lemma ChunkSpelled(y: Style, c: Chunk)
    ensures SpellChunk(y, c) == if c.Plain? then c.text else [y.quote] + (QuoteAll(c.value) + [y.quote])
  {
  }

  lemma ChunkEnds(s: string, i: nat, y: Style, c: Chunk, closing: string)
    requires (y.quote == '\'' || y.quote == '"') && (c.Plain? ==> PlainOk(c.text)) && At(s, i, SpellChunk(y, c)) && i + |SpellChunk(y, c)| + 2 <= |s|
    requires closing == "}}" || closing == "%}"
    ensures TagEnd(s, i, None, false, closing) == TagEnd(s, i + |SpellChunk(y, c)|, None, false, closing)
  {
    hide *;
    ChunkSpelled(y, c);
    if c.Plain? {
      PlainEnds(s, i, c.text, closing);
    } else {
      AtParts(s, i, [y.quote], QuoteAll(c.value) + [y.quote]);
      QuoteOpens(s, i, y.quote, closing);
      LiteralEnds(s, i + 1, c.value, y.quote, closing);
    }
  }

  lemma TagCloses(s: string, i: nat, closing: string)
    requires At(s, i, closing) && (closing == "}}" || closing == "%}")
    ensures TagEnd(s, i, None, false, closing) == Some(i)
  {
    AtChar(s, i, closing, 0);
  }

  lemma AtFits(s: string, i: nat, w: string)
    requires At(s, i, w)
    ensures i + |w| <= |s|
  {
  }

  lemma SpellSplit(y: Style, cs: seq<Chunk>)
    ensures Spell(y, cs) == if cs == [] then "" else SpellChunk(y, cs[0]) + Spell(y, cs[1..])
  {
  }

  lemma ChunksTail(cs: seq<Chunk>)
    requires ChunksOk(cs) && cs != []
    ensures ChunksOk(cs[1..]) && (cs[0].Plain? ==> PlainOk(cs[0].text))
  {
    hide PlainOk;
  }

  lemma {:induction false} ChunksEnd(s: string, i: nat, y: Style, cs: seq<Chunk>, closing: string)
    requires (y.quote == '\'' || y.quote == '"') && ChunksOk(cs) && At(s, i, Spell(y, cs)) && At(s, i + |Spell(y, cs)|, closing)
    requires closing == "}}" || closing == "%}"
    ensures TagEnd(s, i, None, false, closing) == Some(i + |Spell(y, cs)|)
    decreases |cs|
  {
    hide *;
    SpellSplit(y, cs);
    AtFits(s, i + |Spell(y, cs)|, closing);
    if cs == [] {
      TagCloses(s, i, closing);
    } else {
      var c, rest := SpellChunk(y, cs[0]), Spell(y, cs[1..]);
      AtParts(s, i, c, rest);
      ChunksTail(cs);
      ChunkEnds(s, i, y, cs[0], closing);
      ChunksEnd(s, i + |c|, y, cs[1..], closing);
    }
  }

  // ---------------------------------------------------------------- lexing what was spelled

  datatype Piece = TextPiece(text: string) | OutputPiece(chunks: seq<Chunk>) | BlockPiece(chunks: seq<Chunk>)

  function PieceText(y: Style, p: Piece): string {
    if p.TextPiece? then p.text else Spell(y, p.chunks)
  }

  function PieceSource(y: Style, p: Piece): string {
    match p
    case TextPiece(text) => text
    case OutputPiece(chunks) => "{{" + Spell(y, chunks) + "}}"
    case BlockPiece(chunks) => "{%" + Spell(y, chunks) + "%}"
  }

  function Source(y: Style, ps: seq<Piece>): string {
    if ps == [] then "" else PieceSource(y, ps[0]) + Source(y, ps[1..])
  }

  function TokenOf(y: Style, p: Piece, offset: nat): Token {
    Token(if p.TextPiece? then TextToken else if p.OutputPiece? then OutputToken else BlockToken, PieceText(y, p), offset)
  }

  function TokensAt(y: Style, ps: seq<Piece>, offset: nat): (ts: seq<Token>)
    ensures |ts| == |ps|
  {
    if ps == [] then [] else [TokenOf(y, ps[0], offset)] + TokensAt(y, ps[1..], offset + |PieceSource(y, ps[0])|)
  }

  // Texts hold no brace; tags neither start nor end with the whitespace-control sign.
  ghost predicate PieceOk(y: Style, p: Piece) {
    if p.TextPiece? then p.text != "" && '{' !in p.text
    else ChunksOk(p.chunks) && var t := Spell(y, p.chunks); t != "" ==> t[0] != '-' && t[|t| - 1] != '-'
  }

  ghost predicate Lexable(y: Style, ps: seq<Piece>) {
    && (forall i :: 0 <= i < |ps| ==> PieceOk(y, ps[i]))
    && forall i :: 0 <= i < |ps| - 1 ==> !(ps[i].TextPiece? && ps[i + 1].TextPiece?)
  }

  lemma {:induction false} BraceAfter(s: string, i: nat, text: string)
    requires At(s, i, text) && '{' !in text && (i + |text| == |s| || s[i + |text|] == '{')
    ensures FindBrace(s, i) == i + |text|
    decreases |text|
  {
    if text != "" {
      AtChar(s, i, text, 0);
      assert text == [text[0]] + text[1..];
      AtParts(s, i, [text[0]], text[1..]);
      BraceAfter(s, i + 1, text[1..]);
    }
  }

  lemma SourceSplit(y: Style, ps: seq<Piece>)
    requires ps != []
    ensures Source(y, ps) == PieceSource(y, ps[0]) + Source(y, ps[1..])
  {
  }

  lemma TokensSplit(y: Style, ps: seq<Piece>, c: nat)
    requires ps != []
    ensures TokensAt(y, ps, c) == [TokenOf(y, ps[0], c)] + TokensAt(y, ps[1..], c + |PieceSource(y, ps[0])|)
  {
  }

  lemma TextSource(y: Style, p: Piece)
    requires p.TextPiece?
    ensures PieceSource(y, p) == p.text == PieceText(y, p)
  {
  }

  lemma LexableTail(y: Style, ps: seq<Piece>)
    requires Lexable(y, ps) && ps != []
    ensures PieceOk(y, ps[0]) && Lexable(y, ps[1..]) && (|ps| > 1 && ps[0].TextPiece? ==> !ps[1].TextPiece?)
  {
    hide PieceOk;
  }

  function Opening(output: bool): string {
    if output then "{{" else "{%"
  }

  lemma TagSource(y: Style, p: Piece)
    requires !p.TextPiece?
    ensures PieceSource(y, p) == Opening(p.OutputPiece?) + (PieceText(y, p) + Closing(p.OutputPiece?))
    ensures |PieceSource(y, p)| == |PieceText(y, p)| + 4
  {
  }

  // A tag with the given text closes where its text ends, unless that starts or ends with a minus sign.
  lemma TagEnds(s: string, open: nat, t: string, output: bool)
    requires At(s, open, Opening(output)) && At(s, open + 2, t) && At(s, open + 2 + |t|, Closing(output))
    requires TagEnd(s, open + 2, None, false, Closing(output)) == Some(open + 2 + |t|)
    requires t != "" ==> t[0] != '-' && t[|t| - 1] != '-'
    ensures LexTag(s, open, output) == Some(open + 2 + |t|)
  {
    hide TagEnd;
    if t == "" {
      AtChar(s, open + 2, Closing(output), 0);
    } else {
      AtChar(s, open + 2, t, 0);
      AtChar(s, open + 2, t, |t| - 1);
    }
  }

  lemma OpeningReads(s: string, open: nat, output: bool)
    requires At(s, open, Opening(output))
    ensures open < |s| && s[open] == '{' && At(s, open, if output then "{{" else "{%") && (At(s, open, "{{") <==> output)
  {
    AtChar(s, open, Opening(output), 0);
    AtChar(s, open, Opening(output), 1);
    if At(s, open, "{{") { AtChar(s, open, "{{", 1); }
  }

  // The parts of a spelled tag.
  lemma TagParts(s: string, open: nat, y: Style, p: Piece)
    requires !p.TextPiece? && At(s, open, PieceSource(y, p))
    ensures At(s, open, Opening(p.OutputPiece?)) && At(s, open + 2, PieceText(y, p))
    ensures At(s, open + 2 + |PieceText(y, p)|, Closing(p.OutputPiece?)) && open + 4 + |PieceText(y, p)| <= |s|
  {
    var t := PieceText(y, p);
    TagSource(y, p);
    hide PieceSource, PieceText;
    AtParts(s, open, Opening(p.OutputPiece?), t + Closing(p.OutputPiece?));
    AtParts(s, open + 2, t, Closing(p.OutputPiece?));
  }

  lemma TagText(y: Style, p: Piece)
    requires !p.TextPiece? && PieceOk(y, p)
    ensures PieceText(y, p) == Spell(y, p.chunks) && ChunksOk(p.chunks)
    ensures var t := PieceText(y, p); t != "" ==> t[0] != '-' && t[|t| - 1] != '-'
  {
    hide ChunksOk, Spell;
  }

  // A spelled tag is lexed as that tag.
  lemma TagReads(s: string, open: nat, y: Style, p: Piece)
    requires StyleOk(y) && !p.TextPiece? && PieceOk(y, p) && At(s, open, PieceSource(y, p))
    ensures LexTag(s, open, p.OutputPiece?) == Some(open + 2 + |PieceText(y, p)|)
  {
    hide *;
    StyleQuote(y);
    TagParts(s, open, y, p);
    TagText(y, p);
    ClosingIs(p.OutputPiece?);
    ChunksEnd(s, open + 2, y, p.chunks, Closing(p.OutputPiece?));
    TagEnds(s, open, PieceText(y, p), p.OutputPiece?);
  }

  lemma StyleQuote(y: Style)
    requires StyleOk(y)
    ensures y.quote == '\'' || y.quote == '"'
  {
  }

  lemma ClosingIs(output: bool)
    ensures Closing(output) == if output then "}}" else "%}"
  {
  }

  lemma TagIs(s: string, open: nat, y: Style, p: Piece)
    requires !p.TextPiece? && At(s, open, PieceSource(y, p))
    ensures open < |s| && s[open] == '{' && At(s, open, if p.OutputPiece? then "{{" else "{%") && (At(s, open, "{{") <==> p.OutputPiece?)
    ensures open + 4 + |PieceText(y, p)| <= |s| && Tag(s, open, open + 2 + |PieceText(y, p)|, p.OutputPiece?) == TokenOf(y, p, open)
  {
    TagParts(s, open, y, p);
    hide PieceSource, PieceText, At;
    OpeningReads(s, open, p.OutputPiece?);
    AtIs(s, open + 2, PieceText(y, p));
  }

  lemma AtIs(s: string, i: nat, w: string)
    requires At(s, i, w)
    ensures i + |w| <= |s| && s[i..i + |w|] == w
  {
  }

  // The tag that opens at the first brace from c on.
  lemma StepIsTag(s: string, c: nat, open: nat, output: bool, close: nat, t: Token)
    requires c < |s| && FindBrace(s, c) == open < |s| && At(s, open, if output then "{{" else "{%") && (At(s, open, "{{") <==> output)
    requires LexTag(s, open, output) == Some(close) && close <= |s| && Tag(s, open, close, output) == t
    ensures LexStep(s, c) == Lexed(TextFrom(s, c, open) + [t], close + 2)
  {
    hide FindBrace, LexTag, Tag, TextFrom, At;
  }

  lemma BraceHere(s: string, c: nat)
    requires c < |s| && s[c] == '{'
    ensures FindBrace(s, c) == c
  {
  }

  lemma TagStep(s: string, c: nat, open: nat, y: Style, p: Piece)
    requires StyleOk(y) && !p.TextPiece? && PieceOk(y, p) && c <= open && At(s, open, PieceSource(y, p)) && c < |s|
    requires open == c || FindBrace(s, c) == open
    ensures LexStep(s, c) == Lexed(TextFrom(s, c, open) + [TokenOf(y, p, open)], open + |PieceSource(y, p)|)
  {
    hide *;
    TagReads(s, open, y, p);
    TagIs(s, open, y, p);
    TagSource(y, p);
    BraceHere(s, open);
    StepIsTag(s, c, open, p.OutputPiece?, open + 2 + |PieceText(y, p)|, TokenOf(y, p, open));
  }

  lemma TextReads(s: string, c: nat, y: Style, p: Piece)
    requires p.TextPiece? && PieceOk(y, p) && At(s, c, p.text)
    requires c + |p.text| == |s| || s[c + |p.text|] == '{'
    ensures c < |s| && FindBrace(s, c) == c + |p.text| && TextFrom(s, c, c + |p.text|) == [TokenOf(y, p, c)]
  {
    BraceAfter(s, c, p.text);
  }

  // Lexing reads back the pieces that were spelled.
  lemma {:induction false} LexReads(s: string, c: nat, y: Style, ps: seq<Piece>)
    requires StyleOk(y) && Lexable(y, ps) && At(s, c, Source(y, ps)) && c + |Source(y, ps)| == |s|
    ensures LexFrom(s, c) == Some(TokensAt(y, ps, c))
    decreases |ps|
  {
    hide *;
    if ps == [] {
      NothingReads(s, y);
    } else {
      SplitFirst(s, c, y, ps);
      if !ps[0].TextPiece? {
        LexReads(s, c + |PieceSource(y, ps[0])|, y, ps[1..]);
        TagFirst(s, c, y, ps);
      } else if |ps| == 1 {
        LastText(s, c, y, ps);
      } else {
        SplitFirst(s, c + |PieceSource(y, ps[0])|, y, ps[1..]);
        LexReads(s, c + |PieceSource(y, ps[0])| + |PieceSource(y, ps[1])|, y, ps[1..][1..]);
        TextFirst(s, c, y, ps);
      }
    }
  }

  lemma NothingReads(s: string, y: Style)
    ensures Source(y, []) == "" && LexFrom(s, |s|) == Some([]) && TokensAt(y, [], |s|) == []
  {
  }

  lemma SplitFirst(s: string, c: nat, y: Style, ps: seq<Piece>)
    requires ps != [] && Lexable(y, ps) && At(s, c, Source(y, ps)) && c + |Source(y, ps)| == |s|
    ensures PieceOk(y, ps[0]) && Lexable(y, ps[1..]) && (|ps| > 1 && ps[0].TextPiece? ==> !ps[1].TextPiece?)
    ensures At(s, c, PieceSource(y, ps[0])) && At(s, c + |PieceSource(y, ps[0])|, Source(y, ps[1..]))
    ensures c + |PieceSource(y, ps[0])| + |Source(y, ps[1..])| == |s|
  {
    hide *;
    SourceSplit(y, ps);
    LexableTail(y, ps);
    AtParts(s, c, PieceSource(y, ps[0]), Source(y, ps[1..]));
  }

  lemma TagFirst(s: string, c: nat, y: Style, ps: seq<Piece>)
    requires StyleOk(y) && ps != [] && PieceOk(y, ps[0]) && !ps[0].TextPiece? && At(s, c, PieceSource(y, ps[0]))
    requires var next := c + |PieceSource(y, ps[0])|; next <= |s| && LexFrom(s, next) == Some(TokensAt(y, ps[1..], next))
    ensures c <= |s| && LexFrom(s, c) == Some(TokensAt(y, ps, c))
  {
    hide *;
    var p := ps[0];
    TagSource(y, p);
    TokensSplit(y, ps, c);
    TagStep(s, c, c, y, p);
    NoText(s, c);
    OneToken(s, c, c + |PieceSource(y, p)|, TokenOf(y, p, c), TokensAt(y, ps[1..], c + |PieceSource(y, p)|));
  }

  lemma NoText(s: string, c: nat)
    requires c <= |s|
    ensures TextFrom(s, c, c) == []
  {
  }

  lemma OneToken(s: string, c: nat, next: nat, a: Token, rest: seq<Token>)
    requires c < next <= |s| && LexStep(s, c) == Lexed([] + [a], next) && LexFrom(s, next) == Some(rest)
    ensures LexFrom(s, c) == Some([a] + rest)
  {
    hide LexStep;
    assert [] + [a] == [a];
  }

  lemma TextFirst(s: string, c: nat, y: Style, ps: seq<Piece>)
    requires StyleOk(y) && |ps| > 1 && PieceOk(y, ps[0]) && PieceOk(y, ps[1]) && ps[0].TextPiece? && !ps[1].TextPiece?
    requires At(s, c, PieceSource(y, ps[0])) && At(s, c + |PieceSource(y, ps[0])|, PieceSource(y, ps[1]))
    requires var next := c + |PieceSource(y, ps[0])| + |PieceSource(y, ps[1])|;
      next <= |s| && LexFrom(s, next) == Some(TokensAt(y, ps[1..][1..], next))
    ensures c <= |s| && LexFrom(s, c) == Some(TokensAt(y, ps, c))
  {
    hide *;
    var p, q := ps[0], ps[1];
    var open := c + |PieceSource(y, p)|;
    TextSource(y, p);
    TokensSplit(y, ps, c);
    TokensSplit(y, ps[1..], open);
    TagIs(s, open, y, q);
    TextReads(s, c, y, p);
    TagStep(s, c, open, y, q);
    TwoTokens(s, c, open + |PieceSource(y, q)|, TokenOf(y, p, c), TokenOf(y, q, open), TokensAt(y, ps[1..][1..], open + |PieceSource(y, q)|));
  }

  lemma TwoTokens(s: string, c: nat, next: nat, a: Token, b: Token, rest: seq<Token>)
    requires c < next <= |s| && LexStep(s, c) == Lexed([a] + [b], next) && LexFrom(s, next) == Some(rest)
    ensures LexFrom(s, c) == Some([a] + ([b] + rest))
  {
    hide LexStep;
    assert [a] + [b] + rest == [a] + ([b] + rest);
  }

  lemma LastText(s: string, c: nat, y: Style, ps: seq<Piece>)
    requires |ps| == 1 && PieceOk(y, ps[0]) && At(s, c, PieceSource(y, ps[0])) && ps[0].TextPiece? && c + |PieceSource(y, ps[0])| + |Source(y, ps[1..])| == |s|
    ensures LexFrom(s, c) == Some(TokensAt(y, ps, c))
  {
    assert ps[1..] == [];
    TextReads(s, c, y, ps[0]);
    assert LexStep(s, c) == Lexed([TokenOf(y, ps[0], c)], |s|);
    assert LexFrom(s, |s|) == Some([]);
    assert TokensAt(y, ps, c) == [TokenOf(y, ps[0], c)] + [];
  }

  // ---------------------------------------------------------------- what the lexer refuses

  lemma CommentRefused(s: string, c: nat)
    requires At(s, c, "{#")
    ensures c < |s| && LexStep(s, c) == Refused
  {
    AtChar(s, c, "{#", 0);
    AtChar(s, c, "{#", 1);
    NotAt(s, c, "{{", 1);
    NotAt(s, c, "{%", 1);
  }

  lemma NotAt(s: string, p: nat, w: string, i: nat)
    requires i < |w| && p + i < |s| && s[p + i] != w[i]
    ensures !At(s, p, w)
  {
    if p + |w| <= |s| { assert s[p..p + |w|][i] == s[p + i]; }
  }

  // A tag whose text starts or ends with a minus sign asks for whitespace control.
  lemma MinusRefused(s: string, open: nat, y: Style, p: Piece)
    requires StyleOk(y) && !p.TextPiece? && ChunksOk(p.chunks) && At(s, open, PieceSource(y, p))
    requires var t := PieceText(y, p); t != "" && (t[0] == '-' || t[|t| - 1] == '-')
    ensures open < |s| && LexStep(s, open) == Refused
  {
    hide *;
    StyleQuote(y);
    TagIs(s, open, y, p);
    TagParts(s, open, y, p);
    ClosingIs(p.OutputPiece?);
    TextIsSpelled(y, p);
    ChunksEnd(s, open + 2, y, p.chunks, Closing(p.OutputPiece?));
    BraceHere(s, open);
    MinusTag(s, open, PieceText(y, p), p.OutputPiece?);
  }

  lemma TextIsSpelled(y: Style, p: Piece)
    requires !p.TextPiece?
    ensures PieceText(y, p) == Spell(y, p.chunks)
  {
  }

  lemma MinusTag(s: string, open: nat, t: string, output: bool)
    requires open < |s| && FindBrace(s, open) == open && At(s, open, if output then "{{" else "{%") && (At(s, open, "{{") <==> output)
    requires At(s, open + 2, t) && TagEnd(s, open + 2, None, false, Closing(output)) == Some(open + 2 + |t|)
    requires t != "" && (t[0] == '-' || t[|t| - 1] == '-')
    ensures LexStep(s, open) == Refused
  {
    AtChar(s, open + 2, t, 0);
    AtChar(s, open + 2, t, |t| - 1);
    hide TagEnd, FindBrace, At, Closing;
  }
}

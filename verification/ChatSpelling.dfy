// Expressions and statements spelled out, and read back by the grammar and the parser.

module ChatSpelling {
  import opened SizeT
  import opened ChatLexer
  import opened ChatExpression
  import opened ChatSource

  // ---------------------------------------------------------------- spelled expressions

  function RoleName(r: Role): string {
    match r
    case System => "system"
    case User => "user"
    case Assistant => "assistant"
  }

  // message.name or message['name'].
  function FieldChunks(y: Style, name: string): seq<Chunk> {
    if y.dotted then [Plain("message" + (y.inner + ("." + (y.inner + name))))]
    else [Plain("message" + (y.inner + ("[" + y.inner))), Quoted(name), Plain(y.inner + "]")]
  }

  function TermChunks(y: Style, t: Term): seq<Chunk> {
    match t
    case Literal(text) => [Quoted(text)]
    case Content => FieldChunks(y, "content")
    case Eos => [Plain("eos_token")]
  }

  // Terms joined by plus signs.
  function TermsChunks(y: Style, ts: seq<Term>): seq<Chunk>
    requires ts != []
  {
    if |ts| == 1 then TermChunks(y, ts[0]) + [Plain(y.gap)]
    else TermChunks(y, ts[0]) + ([Plain(y.gap + ("+" + y.gap))] + TermsChunks(y, ts[1..]))
  }

  function RoleChunks(y: Style, keyword: string, r: Role): seq<Chunk> {
    [Plain(y.gap + (keyword + y.gap))] + (FieldChunks(y, "role") + [Plain(y.gap + ("==" + y.gap)), Quoted(RoleName(r)), Plain(y.gap)])
  }

  // Words with blanks around them.
  function WordsText(y: Style, ws: seq<string>): string {
    if ws == [] then y.gap else y.gap + (ws[0] + WordsText(y, ws[1..]))
  }

  function PromptText(y: Style): string {
    y.gap + ("if" + (y.gap + ("loop" + (y.inner + ("." + (y.inner + ("last" + WordsText(y, PROMPT_WORDS))))))))
  }

  // ---------------------------------------------------------------- reading the parts

  predicate Identifier(w: string) {
    w != "" && IsStart(w[0]) && forall i :: 0 <= i < |w| ==> IsContinue(w[i])
  }

  // Nothing, or a blank, stands at e.
  predicate Stops(s: string, e: nat) {
    e == |s| || (e < |s| && Blanks([s[e]]))
  }

  lemma BlankIsSpace(c: char)
    requires Blanks([c])
    ensures IsSpace(c) && !IsContinue(c)
  {
    assert [c][0] == c;
  }

  lemma {:induction false} ReadGap(s: string, p: nat, g: string)
    requires At(s, p, g) && Blanks(g) && p + |g| <= |s| && (p + |g| == |s| || !IsSpace(s[p + |g|]))
    ensures SkipSpace(s, p) == p + |g|
    decreases |g|
  {
    if g != "" {
      AtChar(s, p, g, 0);
      assert g == [g[0]] + g[1..];
      AtParts(s, p, [g[0]], g[1..]);
      ReadGap(s, p + 1, g[1..]);
    }
  }

  lemma {:induction false} ReadLetters(s: string, p: nat, w: string)
    requires At(s, p, w) && (forall i :: 0 <= i < |w| ==> IsContinue(w[i])) && p + |w| <= |s| && (p + |w| == |s| || !IsContinue(s[p + |w|]))
    ensures WordEnd(s, p) == p + |w|
    decreases |w|
  {
    if w != "" {
      AtChar(s, p, w, 0);
      assert w == [w[0]] + w[1..];
      AtParts(s, p, [w[0]], w[1..]);
      ReadLetters(s, p + 1, w[1..]);
    }
  }

  lemma StartIsNoSpace(c: char)
    requires IsStart(c)
    ensures !IsSpace(c)
  {
  }

  lemma IdentifierHead(w: string)
    requires Identifier(w)
    ensures w != "" && IsStart(w[0]) && !IsSpace(w[0]) && w == [w[0]] + w[1..] && forall i :: 0 <= i < |w[1..]| ==> IsContinue(w[1..][i])
  {
    hide IsStart, IsContinue, IsSpace;
    StartIsNoSpace(w[0]);
  }

  lemma WordIs(s: string, p: nat, b: nat, e: nat)
    requires p <= |s| && SkipSpace(s, p) == b < e <= |s| && IsStart(s[b]) && WordEnd(s, b + 1) == e
    ensures Word(s, p) == Some((s[b..e], e))
  {
    hide SkipSpace, IsStart, WordEnd;
  }

  lemma ReadWord(s: string, p: nat, g: string, w: string)
    requires At(s, p, g) && At(s, p + |g|, w) && Blanks(g) && Identifier(w) && p + |g| + |w| <= |s|
    requires p + |g| + |w| == |s| || !IsContinue(s[p + |g| + |w|])
    ensures p <= |s| && Word(s, p) == Some((w, p + |g| + |w|))
  {
    hide *;
    IdentifierHead(w);
    AtChar(s, p + |g|, w, 0);
    AtParts(s, p + |g|, [w[0]], w[1..]);
    AtIs(s, p + |g|, w);
    ReadGap(s, p, g);
    ReadLetters(s, p + |g| + 1, w[1..]);
    WordIs(s, p, p + |g|, p + |g| + |w|);
  }

  lemma ReadChar(s: string, p: nat, g: string, c: char)
    requires At(s, p, g) && At(s, p + |g|, [c]) && Blanks(g) && !IsSpace(c)
    ensures p <= |s| && ThisChar(s, p, c) == Some(p + |g| + 1) && p + |g| + 1 <= |s| && SkipSpace(s, p) == p + |g| && s[p + |g|] == c
  {
    AtChar(s, p + |g|, [c], 0);
    hide SkipSpace, IsSpace, Blanks;
    ReadGap(s, p, g);
  }

  lemma ReadLiteral(s: string, p: nat, g: string, quote: char, v: string)
    requires At(s, p, g) && At(s, p + |g|, [quote] + (QuoteAll(v) + [quote])) && Blanks(g) && (quote == '\'' || quote == '"')
    ensures p <= |s| && StringLiteral(s, p) == Some((v, p + |g| + |QuoteAll(v)| + 2)) && p + |g| + |QuoteAll(v)| + 2 <= |s|
    ensures SkipSpace(s, p) == p + |g| && s[p + |g|] == quote
  {
    hide SkipSpace, IsSpace, Blanks, QuoteAll, StringRest, At;
    AtParts(s, p + |g|, [quote], QuoteAll(v) + [quote]);
    QuoteIsNoSpace(quote);
    ReadChar(s, p, g, quote);
    RestReads(s, p + |g| + 1, v, quote);
  }

  lemma QuoteIsNoSpace(quote: char)
    requires quote == '\'' || quote == '"'
    ensures !IsSpace(quote)
  {
  }

  lemma RestReads(s: string, p: nat, v: string, quote: char)
    requires At(s, p, QuoteAll(v) + [quote]) && (quote == '\'' || quote == '"')
    ensures p + |QuoteAll(v)| + 1 <= |s| && StringRest(s, p, quote) == Some((v, p + |QuoteAll(v)| + 1))
  {
    hide *;
    var w := QuoteAll(v) + [quote];
    AtIs(s, p, w);
    Surround(s, p, w);
    QuotedRest(s[..p], v, s[p + |w|..], quote);
    assert s[..p] + QuoteAll(v) + [quote] + s[p + |w|..] == s[..p] + w + s[p + |w|..];
  }

  lemma Surround(s: string, p: nat, w: string)
    requires p + |w| <= |s| && s[p..p + |w|] == w
    ensures s == s[..p] + w + s[p + |w|..]
  {
  }

  // ---------------------------------------------------------------- reading fields and terms

  lemma SpellOne(y: Style, c: Chunk)
    ensures Spell(y, [c]) == SpellChunk(y, c)
  {
    assert [c][1..] == [];
    assert Spell(y, [c]) == SpellChunk(y, c) + Spell(y, []);
  }

  lemma FieldSpelled(y: Style, name: string)
    ensures Spell(y, FieldChunks(y, name)) ==
      if y.dotted then "message" + (y.inner + ("." + (y.inner + name)))
      else "message" + (y.inner + ("[" + (y.inner + (([y.quote] + (QuoteAll(name) + [y.quote])) + (y.inner + "]")))))
  {
    hide QuoteAll, Spell;
    if y.dotted {
      SpellOne(y, FieldChunks(y, name)[0]);
      ChunkSpelled(y, FieldChunks(y, name)[0]);
    } else {
      var a, b, c := FieldChunks(y, name)[0], FieldChunks(y, name)[1], FieldChunks(y, name)[2];
      assert FieldChunks(y, name) == [a] + ([b] + [c]);
      SpellConcat(y, [a], [b] + [c]);
      SpellConcat(y, [b], [c]);
      SpellOne(y, a);
      SpellOne(y, b);
      SpellOne(y, c);
      hide FieldChunks;
      ChunkSpelled(y, a);
      ChunkSpelled(y, b);
      ChunkSpelled(y, c);
      assert c.text == y.inner + "]";
      Regroup("message", y.inner, "[", y.inner, SpellChunk(y, b) + c.text);
    }
  }

  lemma Regroup(a: string, b: string, c: string, d: string, e: string)
    ensures (a + (b + (c + d))) + e == a + (b + (c + (d + e)))
  {
  }

  // Names of fields are identifiers.
  lemma FieldNames()
    ensures Identifier("message") && Identifier("role") && Identifier("content") && Identifier("eos_token")
    ensures FieldOf("role") == Some(RoleField) && FieldOf("content") == Some(ContentField)
  {
  }

  lemma Punctuation()
    ensures !IsSpace('.') && !IsSpace('[') && !IsSpace(']') && !IsSpace('+') && !IsSpace('=')
    ensures !IsContinue('.') && !IsContinue('[') && !IsContinue(']') && !IsContinue('+') && !IsContinue('=') && !IsContinue('\'') && !IsContinue('"')
  {
  }

  // The character after an optional gap does not continue a word.
  lemma AfterWord(s: string, e: nat, g: string, c: char)
    requires At(s, e, g + [c]) && Blanks(g) && !IsContinue(c)
    ensures e < |s| && !IsContinue(s[e])
  {
    AtChar(s, e, g + [c], 0);
    if g != "" { BlankIsSpace(g[0]); }
  }

  lemma AtJoin(s: string, p: nat, a: string, b: string)
    requires At(s, p, a) && At(s, p + |a|, b)
    ensures At(s, p, a + b)
  {
    AtIs(s, p, a);
    AtIs(s, p + |a|, b);
    assert s[p..p + |a| + |b|] == s[p..p + |a|] + s[p + |a|..p + |a| + |b|];
  }

  lemma DottedParts(s: string, p: nat, g: string, name: string)
    requires At(s, p, g + ("." + (g + name)))
    ensures At(s, p, g) && At(s, p + |g|, ".") && At(s, p, g + ".") && At(s, p + |g| + 1, g) && At(s, p + |g| + 1 + |g|, name)
  {
    hide *;
    AtParts(s, p, g, "." + (g + name));
    AtParts(s, p + |g|, ".", g + name);
    AtParts(s, p + |g| + 1, g, name);
    AtJoin(s, p, g, ".");
  }

  lemma SubscriptParts(s: string, p: nat, g: string, lit: string)
    requires At(s, p, g + ("[" + (g + (lit + (g + "]")))))
    ensures var a := p + |g|; var b := a + 1 + |g|; var c := b + |lit|;
      At(s, p, g) && At(s, a, "[") && At(s, p, g + "[") && At(s, a + 1, g) && At(s, b, lit) && At(s, c, g) && At(s, c + |g|, "]")
  {
    hide *;
    AtParts(s, p, g, "[" + (g + (lit + (g + "]"))));
    AtParts(s, p + |g|, "[", g + (lit + (g + "]")));
    AtParts(s, p + |g| + 1, g, lit + (g + "]"));
    AtParts(s, p + |g| + 1 + |g|, lit, g + "]");
    AtParts(s, p + |g| + 1 + |g| + |lit|, g, "]");
    AtJoin(s, p, g, "[");
  }

  // message.name, with the blanks of the style around the dot.
  lemma ReadDotted(s: string, p: nat, y: Style, name: string)
    requires StyleOk(y) && y.dotted && Identifier(name) && At(s, p, y.inner + ("." + (y.inner + name)))
    requires p + |y.inner| + 1 + |y.inner| + |name| <= |s|
    requires var e := p + |y.inner| + 1 + |y.inner| + |name|; e == |s| || !IsContinue(s[e])
    ensures p <= |s| && FieldName(s, p) == Some((name, p + |y.inner| + 1 + |y.inner| + |name|))
    ensures p < |s| && !IsContinue(s[p])
  {
    hide *;
    StyleBlanks(y);
    Punctuation();
    DottedParts(s, p, y.inner, name);
    AfterWord(s, p, y.inner, '.');
    ReadChar(s, p, y.inner, '.');
    ReadWord(s, p + |y.inner| + 1, y.inner, name);
    DottedField(s, p, p + |y.inner|);
  }

  lemma StyleBlanks(y: Style)
    requires StyleOk(y)
    ensures Blanks(y.gap) && Blanks(y.inner) && y.gap != "" && (y.quote == '\'' || y.quote == '"')
  {
    hide Blanks;
  }

  lemma DottedField(s: string, p: nat, b: nat)
    requires p <= |s| && SkipSpace(s, p) == b < |s| && s[b] == '.'
    ensures FieldName(s, p) == Word(s, b + 1)
  {
    hide Word, SkipSpace, ThisChar, StringLiteral;
  }

  // message['name'].
  lemma ReadSubscript(s: string, p: nat, y: Style, name: string)
    requires StyleOk(y) && At(s, p, y.inner + ("[" + (y.inner + (([y.quote] + (QuoteAll(name) + [y.quote])) + (y.inner + "]")))))
    ensures p <= |s| && FieldName(s, p) == Some((name, p + |y.inner| + 1 + |y.inner| + |QuoteAll(name)| + 2 + |y.inner| + 1))
    ensures p < |s| && !IsContinue(s[p])
  {
    hide *;
    StyleBlanks(y);
    Punctuation();
    var lit := [y.quote] + (QuoteAll(name) + [y.quote]);
    var a := p + |y.inner|;
    var b := a + 1 + |y.inner|;
    var c := b + |lit|;
    SubscriptParts(s, p, y.inner, lit);
    AfterWord(s, p, y.inner, '[');
    ReadChar(s, p, y.inner, '[');
    ReadLiteral(s, a + 1, y.inner, y.quote, name);
    ReadChar(s, c, y.inner, ']');
    SubscriptField(s, p, a, name, c, c + |y.inner| + 1);
  }

  lemma SubscriptField(s: string, p: nat, b: nat, name: string, e: nat, end: nat)
    requires p <= |s| && SkipSpace(s, p) == b < |s| && s[b] == '[' && ThisChar(s, p, '[') == Some(b + 1)
    requires StringLiteral(s, b + 1) == Some((name, e)) && e <= |s| && ThisChar(s, e, ']') == Some(end)
    ensures FieldName(s, p) == Some((name, end))
  {
    assert SkipSpace(s, b) == b by { SkipTwice(s, b); }
    hide Word, SkipSpace, StringLiteral;
  }

  lemma SkipTwice(s: string, b: nat)
    requires b < |s| && s[b] == '['
    ensures SkipSpace(s, b) == b
  {
  }

  // A field of the message, in either form.
  lemma ReadField(s: string, p: nat, g: string, y: Style, name: string)
    requires StyleOk(y) && Blanks(g) && Identifier(name) && At(s, p, g) && At(s, p + |g|, Spell(y, FieldChunks(y, name)))
    requires FieldOf(name).Some? && Stops(s, p + |g| + |Spell(y, FieldChunks(y, name))|)
    ensures p <= |s| && MessageField(s, p) == Some((FieldOf(name).value, p + |g| + |Spell(y, FieldChunks(y, name))|))
    ensures SkipSpace(s, p) == p + |g| < |s| && s[p + |g|] == 'm'
  {
    hide *;
    FieldRestIs(y, name);
    AtFits(s, p + |g|, Spell(y, FieldChunks(y, name)));
    StopsWord(s, p + |g| + |Spell(y, FieldChunks(y, name))|);
    ReadMessage(s, p, g, y, name, FieldRest(y, name));
  }

  lemma ReadMessage(s: string, p: nat, g: string, y: Style, name: string, rest: string)
    requires StyleOk(y) && Blanks(g) && Identifier(name) && At(s, p, g) && At(s, p + |g|, "message" + rest) && rest == FieldRest(y, name)
    requires FieldOf(name).Some? && var e := p + |g| + |"message" + rest|; e <= |s| && (e == |s| || !IsContinue(s[e]))
    ensures p <= |s| && MessageField(s, p) == Some((FieldOf(name).value, p + |g| + |"message" + rest|))
    ensures SkipSpace(s, p) == p + |g| < |s| && s[p + |g|] == 'm'
  {
    hide *;
    FieldNames();
    var q := p + |g| + |"message"|;
    AtParts(s, p + |g|, "message", rest);
    ReadRest(s, q, y, name);
    ReadWord(s, p, g, "message");
    FieldFollows(s, p, q, name, q + |rest|);
    FirstLetter(s, p, g);
  }

  // What follows the word message.
  function FieldRest(y: Style, name: string): string {
    if y.dotted then y.inner + ("." + (y.inner + name))
    else y.inner + ("[" + (y.inner + (([y.quote] + (QuoteAll(name) + [y.quote])) + (y.inner + "]"))))
  }

  lemma FieldRestIs(y: Style, name: string)
    ensures Spell(y, FieldChunks(y, name)) == "message" + FieldRest(y, name)
  {
    hide Spell, FieldChunks, QuoteAll;
    FieldSpelled(y, name);
  }

  lemma ReadRest(s: string, p: nat, y: Style, name: string)
    requires StyleOk(y) && Identifier(name) && At(s, p, FieldRest(y, name)) && p + |FieldRest(y, name)| <= |s|
    requires var e := p + |FieldRest(y, name)|; e == |s| || !IsContinue(s[e])
    ensures p < |s| && FieldName(s, p) == Some((name, p + |FieldRest(y, name)|)) && !IsContinue(s[p])
  {
    hide Identifier, At, FieldName, IsContinue, QuoteAll, StyleOk;
    if y.dotted { ReadDotted(s, p, y, name); } else { ReadSubscript(s, p, y, name); }
  }

  lemma StopsWord(s: string, e: nat)
    requires Stops(s, e) && e <= |s|
    ensures e == |s| || !IsContinue(s[e])
  {
    if e < |s| { BlankIsSpace(s[e]); }
  }

  lemma FirstLetter(s: string, p: nat, g: string)
    requires At(s, p, g) && At(s, p + |g|, "message") && Blanks(g)
    ensures p <= |s| && SkipSpace(s, p) == p + |g| < |s| && s[p + |g|] == 'm'
  {
    AtChar(s, p + |g|, "message", 0);
    ReadGap(s, p, g);
  }

  lemma FieldFollows(s: string, p: nat, q: nat, name: string, end: nat)
    requires p <= |s| && q <= |s| && Word(s, p) == Some(("message", q)) && FieldName(s, q) == Some((name, end)) && FieldOf(name).Some?
    ensures MessageField(s, p) == Some((FieldOf(name).value, end))
  {
    hide Word, FieldName;
  }

  lemma TermSpelled(y: Style, t: Term)
    ensures Spell(y, TermChunks(y, t)) ==
      match t
      case Literal(text) => [y.quote] + (QuoteAll(text) + [y.quote])
      case Content => Spell(y, FieldChunks(y, "content"))
      case Eos => "eos_token"
  {
    hide Spell, FieldChunks;
    if !t.Content? {
      SpellOne(y, TermChunks(y, t)[0]);
      ChunkSpelled(y, TermChunks(y, t)[0]);
    }
  }

  lemma AtNothing(s: string, p: nat)
    requires p <= |s|
    ensures At(s, p, "") && Blanks("")
  {
  }

  lemma LiteralTerm(s: string, p: nat, g: string, y: Style, text: string)
    requires StyleOk(y) && Blanks(g) && At(s, p, g) && At(s, p + |g|, [y.quote] + (QuoteAll(text) + [y.quote]))
    ensures p <= |s| && OutputTerm(s, p) == Some((Literal(text), p + |g| + |[y.quote] + (QuoteAll(text) + [y.quote])|))
  {
    hide *;
    var b := p + |g|;
    StyleBlanks(y);
    AtFits(s, b, [y.quote] + (QuoteAll(text) + [y.quote]));
    AtNothing(s, b);
    ReadLiteral(s, p, g, y.quote, text);
    ReadLiteral(s, b, "", y.quote, text);
    QuotedTerm(s, p, b, text, b + |[y.quote] + (QuoteAll(text) + [y.quote])|);
  }

  lemma FieldTerm(s: string, p: nat, g: string, y: Style)
    requires StyleOk(y) && Blanks(g) && At(s, p, g) && At(s, p + |g|, Spell(y, FieldChunks(y, "content")))
    requires Stops(s, p + |g| + |Spell(y, FieldChunks(y, "content"))|)
    ensures p <= |s| && OutputTerm(s, p) == Some((Content, p + |g| + |Spell(y, FieldChunks(y, "content"))|))
  {
    hide *;
    var b, w := p + |g|, Spell(y, FieldChunks(y, "content"));
    AtFits(s, b, w);
    AtNothing(s, b);
    FieldNames();
    ReadField(s, p, g, y, "content");
    ReadField(s, b, "", y, "content");
    ContentTerm(s, p, b, b + |w|);
  }

  // One operand, behind the blanks g.
  lemma ReadTerm(s: string, p: nat, g: string, y: Style, t: Term)
    requires StyleOk(y) && Blanks(g) && At(s, p, g) && At(s, p + |g|, Spell(y, TermChunks(y, t)))
    requires Stops(s, p + |g| + |Spell(y, TermChunks(y, t))|)
    ensures p <= |s| && OutputTerm(s, p) == Some((t, p + |g| + |Spell(y, TermChunks(y, t))|))
  {
    hide *;
    TermSpelled(y, t);
    match t
    case Literal(text) => LiteralTerm(s, p, g, y, text);
    case Content => FieldTerm(s, p, g, y);
    case Eos => EosReads(s, p, g);
  }

  lemma EosReads(s: string, p: nat, g: string)
    requires Blanks(g) && At(s, p, g) && At(s, p + |g|, "eos_token") && Stops(s, p + |g| + |"eos_token"|)
    ensures p <= |s| && OutputTerm(s, p) == Some((Eos, p + |g| + |"eos_token"|))
  {
    hide *;
    var b := p + |g|;
    AtFits(s, b, "eos_token");
    AtNothing(s, b);
    FieldNames();
    StopsWord(s, b + |"eos_token"|);
    FirstOfEos(s, p, g);
    ReadWord(s, b, "", "eos_token");
    EosTerm(s, p, b, b + |"eos_token"|);
  }

  lemma QuotedTerm(s: string, p: nat, b: nat, text: string, e: nat)
    requires p <= |s| && SkipSpace(s, p) == b < |s| && (s[b] == '\'' || s[b] == '"') && StringLiteral(s, b) == Some((text, e))
    ensures OutputTerm(s, p) == Some((Literal(text), e))
  {
    hide SkipSpace, StringLiteral, MessageField, ThisWord;
  }

  lemma ContentTerm(s: string, p: nat, b: nat, e: nat)
    requires p <= |s| && SkipSpace(s, p) == b < |s| && s[b] == 'm' && MessageField(s, b) == Some((ContentField, e))
    ensures OutputTerm(s, p) == Some((Content, e))
  {
    hide SkipSpace, StringLiteral, MessageField, ThisWord;
  }

  lemma EosTerm(s: string, p: nat, b: nat, e: nat)
    requires p <= |s| && SkipSpace(s, p) == b < |s| && s[b] == 'e' && Word(s, b) == Some(("eos_token", e))
    ensures OutputTerm(s, p) == Some((Eos, e))
  {
    hide SkipSpace, StringLiteral, MessageField, Word;
  }

  lemma FirstOfEos(s: string, p: nat, g: string)
    requires At(s, p, g) && At(s, p + |g|, "eos_token") && Blanks(g)
    ensures p <= |s| && SkipSpace(s, p) == p + |g| < |s| && s[p + |g|] == 'e'
  {
    AtChar(s, p + |g|, "eos_token", 0);
    ReadGap(s, p, g);
  }

  // Blanks up to the end.
  lemma GapToEnd(s: string, p: nat, g: string)
    requires At(s, p, g) && Blanks(g) && p + |g| == |s|
    ensures p <= |s| && AtEnd(s, p)
  {
    ReadGap(s, p, g);
  }

  lemma GapStops(s: string, p: nat, g: string)
    requires At(s, p, g) && Blanks(g) && g != ""
    ensures Stops(s, p)
  {
    AtChar(s, p, g, 0);
    assert [s[p]][0] == g[0];
  }

  lemma LastOperandAt(s: string, p: nat, t: Term, e: nat)
    requires p <= |s| && OutputTerm(s, p) == Some((t, e)) && e <= |s| && AtEnd(s, e)
    ensures OutputTerms(s, p) == Some([t])
  {
    hide OutputTerm, AtEnd;
  }

  lemma NextOperandAt(s: string, p: nat, t: Term, e: nat, b: nat, ts: seq<Term>)
    requires p <= |s| && OutputTerm(s, p) == Some((t, e)) && e <= |s| && ThisChar(s, e, '+') == Some(b + 1) && SkipSpace(s, e) == b < |s|
    requires p < b + 1 <= |s| && OutputTerms(s, b + 1) == Some(ts)
    ensures OutputTerms(s, p) == Some([t] + ts)
  {
    hide OutputTerm, ThisChar, SkipSpace;
    assert OperandAt(s, p) == NextOperand(t, b + 1);
  }

  lemma TermsSpelled(y: Style, ts: seq<Term>)
    requires ts != []
    ensures Spell(y, TermsChunks(y, ts)) == Spell(y, TermChunks(y, ts[0])) +
      if |ts| == 1 then y.gap else (y.gap + ("+" + y.gap)) + Spell(y, TermsChunks(y, ts[1..]))
  {
    hide Spell, TermChunks;
    if |ts| == 1 {
      SpellConcat(y, TermChunks(y, ts[0]), [Plain(y.gap)]);
      SpellOne(y, Plain(y.gap));
    } else {
      var plus := Plain(y.gap + ("+" + y.gap));
      SpellConcat(y, TermChunks(y, ts[0]), [plus] + TermsChunks(y, ts[1..]));
      SpellConcat(y, [plus], TermsChunks(y, ts[1..]));
      SpellOne(y, plus);
    }
  }

  // A concatenation of operands up to the end of the tag.
  lemma {:induction false} ReadTerms(s: string, p: nat, g: string, y: Style, ts: seq<Term>)
    requires StyleOk(y) && Blanks(g) && ts != [] && At(s, p, g) && At(s, p + |g|, Spell(y, TermsChunks(y, ts)))
    requires p + |g| + |Spell(y, TermsChunks(y, ts))| == |s|
    ensures p <= |s| && OutputTerms(s, p) == Some(ts)
    decreases |ts|
  {
    hide *;
    TermsSpelled(y, ts);
    StyleBlanks(y);
    var w := Spell(y, TermChunks(y, ts[0]));
    var e := p + |g| + |w|;
    if |ts| == 1 {
      AtParts(s, p + |g|, w, y.gap);
      GapStops(s, e, y.gap);
      ReadTerm(s, p, g, y, ts[0]);
      GapToEnd(s, e, y.gap);
      LastOperandAt(s, p, ts[0], e);
      assert [ts[0]] == ts;
    } else {
      var rest := Spell(y, TermsChunks(y, ts[1..]));
      PlusParts(s, p + |g|, w, y.gap, rest);
      GapStops(s, e, y.gap);
      ReadTerm(s, p, g, y, ts[0]);
      Punctuation();
      ReadChar(s, e, y.gap, '+');
      ReadTerms(s, e + |y.gap| + 1, y.gap, y, ts[1..]);
      NextOperandAt(s, p, ts[0], e, e + |y.gap|, ts[1..]);
      assert [ts[0]] + ts[1..] == ts;
    }
  }

  lemma PlusParts(s: string, p: nat, w: string, g: string, rest: string)
    requires At(s, p, w + ((g + ("+" + g)) + rest))
    ensures var e := p + |w|;
      At(s, p, w) && At(s, e, g) && At(s, e + |g|, "+") && At(s, e + |g| + 1, g) && At(s, e + |g| + 1 + |g|, rest)
    ensures |w + ((g + ("+" + g)) + rest)| == |w| + |g| + 1 + |g| + |rest|
  {
    hide *;
    AtParts(s, p, w, (g + ("+" + g)) + rest);
    AtParts(s, p + |w|, g + ("+" + g), rest);
    AtParts(s, p + |w|, g, "+" + g);
    AtParts(s, p + |w| + |g|, "+", g);
  }

  // ---------------------------------------------------------------- reading block tags

  lemma WordsSplit(y: Style, ws: seq<string>)
    ensures WordsText(y, ws) == if ws == [] then y.gap else y.gap + (ws[0] + WordsText(y, ws[1..]))
  {
  }

  lemma WordsTextGap(y: Style, ws: seq<string>)
    ensures |WordsText(y, ws)| >= |y.gap| && WordsText(y, ws)[..|y.gap|] == y.gap
  {
  }

  lemma AtPrefix(s: string, p: nat, w: string, n: nat)
    requires At(s, p, w) && n <= |w|
    ensures At(s, p, w[..n])
  {
    assert w == w[..n] + w[n..];
    AtParts(s, p, w[..n], w[n..]);
  }

  // The first word of a list, and where the rest stands.
  lemma ReadFirstWord(s: string, p: nat, y: Style, ws: seq<string>)
    requires StyleOk(y) && ws != [] && Identifier(ws[0]) && At(s, p, WordsText(y, ws))
    ensures p <= |s| && Word(s, p) == Some((ws[0], p + |y.gap| + |ws[0]|)) && At(s, p + |y.gap| + |ws[0]|, WordsText(y, ws[1..]))
    ensures |WordsText(y, ws)| == |y.gap| + |ws[0]| + |WordsText(y, ws[1..])|
  {
    hide *;
    StyleBlanks(y);
    WordsSplit(y, ws);
    var rest := WordsText(y, ws[1..]);
    AtParts(s, p, y.gap, ws[0] + rest);
    AtParts(s, p + |y.gap|, ws[0], rest);
    WordsTextGap(y, ws[1..]);
    AtPrefix(s, p + |y.gap| + |ws[0]|, rest, |y.gap|);
    GapStops(s, p + |y.gap| + |ws[0]|, y.gap);
    AtFits(s, p + |y.gap| + |ws[0]|, rest);
    StopsWord(s, p + |y.gap| + |ws[0]|);
    ReadWord(s, p, y.gap, ws[0]);
  }

  lemma {:induction false} ReadWords(s: string, p: nat, y: Style, ws: seq<string>)
    requires StyleOk(y) && (forall i :: 0 <= i < |ws| ==> Identifier(ws[i])) && At(s, p, WordsText(y, ws)) && p + |WordsText(y, ws)| == |s|
    ensures p <= |s| && Words(s, p, ws).Some? && AtEnd(s, Words(s, p, ws).value)
    decreases |ws|
  {
    hide *;
    if ws == [] {
      WordsSplit(y, ws);
      StyleBlanks(y);
      GapToEnd(s, p, y.gap);
      NoWords(s, p);
    } else {
      ReadFirstWord(s, p, y, ws);
      ReadWords(s, p + |y.gap| + |ws[0]|, y, ws[1..]);
      MoreWords(s, p, ws, p + |y.gap| + |ws[0]|);
    }
  }

  lemma NoWords(s: string, p: nat)
    requires p <= |s|
    ensures Words(s, p, []) == Some(p)
  {
  }

  lemma MoreWords(s: string, p: nat, ws: seq<string>, q: nat)
    requires p <= |s| && ws != [] && Word(s, p) == Some((ws[0], q)) && q <= |s|
    ensures Words(s, p, ws) == Words(s, q, ws[1..])
  {
    hide Word;
  }

  lemma AtWhole(s: string)
    ensures At(s, 0, s)
  {
  }

  // A tag of words is read as those words, and its first word is its keyword.
  lemma WordsRead(y: Style, ws: seq<string>)
    requires StyleOk(y) && ws != [] && forall i :: 0 <= i < |ws| ==> Identifier(ws[i])
    ensures OnlyWords(WordsText(y, ws), ws)
    ensures Word(WordsText(y, ws), 0).Some? && Word(WordsText(y, ws), 0).value.0 == ws[0]
  {
    hide *;
    var s := WordsText(y, ws);
    AtWhole(s);
    ReadFirstWord(s, 0, y, ws);
    ReadWords(s, 0, y, ws);
    OnlyThese(s, ws);
  }

  lemma OnlyThese(s: string, ws: seq<string>)
    requires Words(s, 0, ws).Some? && AtEnd(s, Words(s, 0, ws).value)
    ensures OnlyWords(s, ws)
  {
    hide Words, AtEnd;
  }

  lemma RoleSpelled(y: Style, keyword: string, r: Role)
    ensures Spell(y, RoleChunks(y, keyword, r)) ==
      (y.gap + (keyword + y.gap)) + (Spell(y, FieldChunks(y, "role"))
        + ((y.gap + ("==" + y.gap)) + (([y.quote] + (QuoteAll(RoleName(r)) + [y.quote])) + y.gap)))
  {
    hide Spell, FieldChunks, QuoteAll;
    var a, b, c, d := Plain(y.gap + (keyword + y.gap)), Plain(y.gap + ("==" + y.gap)), Quoted(RoleName(r)), Plain(y.gap);
    assert [b, c, d] == [b] + ([c] + [d]);
    SpellConcat(y, [a], FieldChunks(y, "role") + [b, c, d]);
    SpellConcat(y, FieldChunks(y, "role"), [b] + ([c] + [d]));
    SpellConcat(y, [b], [c] + [d]);
    SpellConcat(y, [c], [d]);
    SpellOne(y, a);
    SpellOne(y, b);
    SpellOne(y, c);
    SpellOne(y, d);
    hide RoleName;
    ChunkSpelled(y, a);
    ChunkSpelled(y, b);
    ChunkSpelled(y, c);
    ChunkSpelled(y, d);
  }

  lemma RoleParts(s: string, p: nat, g: string, keyword: string, field: string, lit: string)
    requires At(s, p, (g + (keyword + g)) + (field + ((g + ("==" + g)) + (lit + g))))
    ensures var k := p + |g|; var f := k + |keyword| + |g|; var o := f + |field|; var l := o + |g| + 2 + |g|;
      && At(s, p, g) && At(s, k, keyword) && At(s, k + |keyword|, g) && At(s, f, field) && At(s, o, g) && At(s, o + |g|, "==")
      && At(s, o + |g| + 2, g) && At(s, l, lit) && At(s, l + |lit|, g) && l + |lit| + |g| == p + |(g + (keyword + g)) + (field + ((g + ("==" + g)) + (lit + g)))|
  {
    hide *;
    var tail := (g + ("==" + g)) + (lit + g);
    AtParts(s, p, g + (keyword + g), field + tail);
    AtParts(s, p, g, keyword + g);
    AtParts(s, p + |g|, keyword, g);
    var f := p + |g| + |keyword| + |g|;
    AtParts(s, f, field, tail);
    AtParts(s, f + |field|, g + ("==" + g), lit + g);
    AtParts(s, f + |field|, g, "==" + g);
    AtParts(s, f + |field| + |g|, "==", g);
    AtParts(s, f + |field| + |g| + 2 + |g|, lit, g);
  }

  lemma ReadOperator(s: string, p: nat, g: string)
    requires At(s, p, g) && At(s, p + |g|, "==") && Blanks(g)
    ensures p <= |s| && Operator(s, p, "==") == Some(p + |g| + 2) && p + |g| + 2 <= |s|
  {
    Punctuation();
    AtChar(s, p + |g|, "==", 0);
    AtIs(s, p + |g|, "==");
    hide SkipSpace, At, Blanks, IsSpace;
    ReadGap(s, p, g);
  }

  // Both condition parsers on a role condition.
  lemma RoleRead(y: Style, keyword: string, r: Role)
    requires StyleOk(y) && (keyword == "if" || keyword == "elif")
    ensures var s := Spell(y, RoleChunks(y, keyword, r));
      && Word(s, 0).Some? && Word(s, 0).value.0 == keyword
      && RoleCondition(s) == Some(r) && GenerationCondition(s) == Some(false)
  {
    hide *;
    var s, field, lit := Spell(y, RoleChunks(y, keyword, r)), Spell(y, FieldChunks(y, "role")), [y.quote] + (QuoteAll(RoleName(r)) + [y.quote]);
    var g := y.gap;
    RoleSpelled(y, keyword, r);
    AtWhole(s);
    StyleBlanks(y);
    Keywords();
    FieldNames();
    RoleParts(s, 0, g, keyword, field, lit);
    var k := |g| + |keyword|;
    var f := k + |g|;
    var o := f + |field|;
    var l := o + |g| + 2 + |g|;
    ReadRoleParts(s, y, keyword, field, r, k, f, o, l);
  }

  lemma Keywords()
    ensures Identifier("if") && Identifier("elif") && Identifier("loop") && Identifier("last") && Identifier("and")
    ensures Identifier("for") && Identifier("in") && Identifier("messages") && Identifier("endfor") && Identifier("endif")
    ensures Identifier("add_generation_prompt")
  {
  }

  lemma ReadRoleParts(s: string, y: Style, keyword: string, field: string, r: Role, k: nat, f: nat, o: nat, l: nat)
    requires StyleOk(y) && (keyword == "if" || keyword == "elif") && field == Spell(y, FieldChunks(y, "role"))
    requires k == |y.gap| + |keyword| && f == k + |y.gap| && o == f + |field| && l == o + |y.gap| + 2 + |y.gap|
    requires At(s, 0, y.gap) && At(s, |y.gap|, keyword) && At(s, k, y.gap) && At(s, f, field) && At(s, o, y.gap) && At(s, o + |y.gap|, "==")
    requires var lit := [y.quote] + (QuoteAll(RoleName(r)) + [y.quote]);
      At(s, o + |y.gap| + 2, y.gap) && At(s, l, lit) && At(s, l + |lit|, y.gap) && l + |lit| + |y.gap| == |s|
    ensures Word(s, 0).Some? && Word(s, 0).value.0 == keyword && RoleCondition(s) == Some(r) && GenerationCondition(s) == Some(false)
  {
    hide *;
    StyleBlanks(y);
    Keywords();
    FieldNames();
    var lit := [y.quote] + (QuoteAll(RoleName(r)) + [y.quote]);
    GapStops(s, k, y.gap);
    AtFits(s, k, y.gap);
    StopsWord(s, k);
    ReadWord(s, 0, y.gap, keyword);
    GapStops(s, o, y.gap);
    ReadField(s, k, y.gap, y, "role");
    FieldStarts(s, k, f, y);
    ReadOperator(s, o, y.gap);
    ReadLiteral(s, o + |y.gap| + 2, y.gap, y.quote, RoleName(r));
    GapToEnd(s, l + |lit|, y.gap);
    RoleNames(r);
    ConditionFollows(s, keyword, k, o, o + |y.gap| + 2, r, l + |lit|);
  }

  lemma RoleNames(r: Role)
    ensures RoleOf(RoleName(r)) == Some(r)
  {
  }

  // The field starts with the word message.
  lemma FieldStarts(s: string, k: nat, f: nat, y: Style)
    requires StyleOk(y) && f == k + |y.gap| && At(s, k, y.gap) && At(s, f, Spell(y, FieldChunks(y, "role")))
    requires f + |Spell(y, FieldChunks(y, "role"))| <= |s| && Stops(s, f + |Spell(y, FieldChunks(y, "role"))|)
    ensures k <= |s| && Word(s, k).Some? && Word(s, k).value.0 == "message"
  {
    hide *;
    FieldRestIs(y, "role");
    FieldNames();
    StyleBlanks(y);
    StopsWord(s, f + |Spell(y, FieldChunks(y, "role"))|);
    AtParts(s, f, "message", FieldRest(y, "role"));
    ReadRest(s, f + 7, y, "role");
    ReadWord(s, k, y.gap, "message");
  }

  lemma ConditionFollows(s: string, keyword: string, k: nat, o: nat, q: nat, r: Role, e: nat)
    requires (keyword == "if" || keyword == "elif") && Word(s, 0) == Some((keyword, k)) && k <= |s|
    requires MessageField(s, k) == Some((RoleField, o)) && o <= |s| && Operator(s, o, "==") == Some(q) && q <= |s|
    requires StringLiteral(s, q) == Some((RoleName(r), e)) && e <= |s| && AtEnd(s, e) && RoleOf(RoleName(r)) == Some(r)
    requires Word(s, k).Some? && Word(s, k).value.0 == "message"
    ensures RoleCondition(s) == Some(r) && GenerationCondition(s) == Some(false)
  {
    hide Word, MessageField, Operator, StringLiteral, AtEnd, RoleOf, RoleName;
  }

  const PROMPT_WORDS: seq<string> := ["and", "add_generation_prompt"]

  lemma PromptSpelled(y: Style)
    ensures PromptText(y) ==
      y.gap + ("if" + (y.gap + ("loop" + (y.inner + ("." + (y.inner + ("last" + WordsText(y, PROMPT_WORDS))))))))
  {
    hide WordsText;
  }

  // if loop.last and add_generation_prompt.
  lemma PromptRead(y: Style)
    requires StyleOk(y)
    ensures Word(PromptText(y), 0).Some? && Word(PromptText(y), 0).value.0 == "if" && GenerationCondition(PromptText(y)) == Some(true)
  {
    hide *;
    PromptSpelled(y);
    var s, tail := PromptText(y), "last" + WordsText(y, PROMPT_WORDS);
    AtWhole(s);
    IfTextParts(s, y.gap, "loop" + (y.inner + ("." + (y.inner + tail))));
    LoopParts(s, |y.gap| + 2 + |y.gap|, y.inner, tail);
    ReadPrompt(s, y, |y.gap| + 2, |y.gap| + 2 + |y.gap| + 4, |y.gap| + 2 + |y.gap| + 4 + |y.inner| + 1);
  }

  lemma IfTextParts(s: string, g: string, rest: string)
    requires At(s, 0, s) && s == g + ("if" + (g + rest))
    ensures At(s, 0, g) && At(s, |g|, "if") && At(s, |g| + 2, g) && At(s, |g| + 2 + |g|, rest) && |g| + 2 + |g| + |rest| == |s|
  {
    hide *;
    AtParts(s, 0, g, "if" + (g + rest));
    AtParts(s, |g|, "if", g + rest);
    AtParts(s, |g| + 2, g, rest);
  }

  lemma LoopParts(s: string, p: nat, h: string, tail: string)
    requires At(s, p, "loop" + (h + ("." + (h + tail))))
    ensures var d := p + 4; var t := d + |h| + 1;
      At(s, p, "loop") && At(s, d, h) && At(s, d + |h|, ".") && At(s, d, h + ".") && At(s, t, h) && At(s, t + |h|, tail)
    ensures |"loop" + (h + ("." + (h + tail)))| == 4 + |h| + 1 + |h| + |tail|
  {
    hide *;
    var d := p + 4;
    AtParts(s, p, "loop", h + ("." + (h + tail)));
    AtParts(s, d, h, "." + (h + tail));
    AtParts(s, d + |h|, ".", h + tail);
    AtParts(s, d + |h| + 1, h, tail);
    AtJoin(s, d, h, ".");
  }

  lemma ReadPrompt(s: string, y: Style, k: nat, d: nat, t: nat)
    requires StyleOk(y) && k == |y.gap| + 2 && d == k + |y.gap| + 4 && t == d + |y.inner| + 1
    requires At(s, 0, y.gap) && At(s, |y.gap|, "if") && At(s, k, y.gap) && At(s, k + |y.gap|, "loop")
    requires At(s, d, y.inner) && At(s, d + |y.inner|, ".") && At(s, d, y.inner + ".")
    requires At(s, t, y.inner) && At(s, t + |y.inner|, "last" + WordsText(y, PROMPT_WORDS))
    requires t + |y.inner| + |"last" + WordsText(y, PROMPT_WORDS)| == |s|
    ensures Word(s, 0).Some? && Word(s, 0).value.0 == "if" && GenerationCondition(s) == Some(true)
  {
    hide *;
    StyleBlanks(y);
    Keywords();
    Punctuation();
    GapStops(s, k, y.gap);
    AtFits(s, k, y.gap);
    StopsWord(s, k);
    ReadWord(s, 0, y.gap, "if");
    AfterWord(s, d, y.inner, '.');
    ReadWord(s, k, y.gap, "loop");
    ReadChar(s, d, y.inner, '.');
    ReadLast(s, t, y);
    PromptFollows(s, k, d, t);
  }

  lemma PromptIs()
    ensures |PROMPT_WORDS| == 2 && PROMPT_WORDS[0] == "and" && PROMPT_WORDS[1] == "add_generation_prompt"
    ensures ["last"] + PROMPT_WORDS == ["last", "and", "add_generation_prompt"] && (["last"] + PROMPT_WORDS)[1..] == PROMPT_WORDS
  {
  }

  lemma ReadLast(s: string, t: nat, y: Style)
    requires StyleOk(y) && At(s, t, y.inner) && At(s, t + |y.inner|, "last" + WordsText(y, PROMPT_WORDS))
    requires t + |y.inner| + |"last" + WordsText(y, PROMPT_WORDS)| == |s|
    ensures t <= |s| && Words(s, t, ["last", "and", "add_generation_prompt"]).Some? && AtEnd(s, Words(s, t, ["last", "and", "add_generation_prompt"]).value)
  {
    hide *;
    var ws := PROMPT_WORDS;
    PromptIs();
    StyleBlanks(y);
    Keywords();
    var e := t + |y.inner| + |"last"|;
    AtParts(s, t + |y.inner|, "last", WordsText(y, ws));
    WordsTextGap(y, ws);
    AtPrefix(s, e, WordsText(y, ws), |y.gap|);
    GapStops(s, e, y.gap);
    AtFits(s, e, WordsText(y, ws));
    StopsWord(s, e);
    ReadWord(s, t, y.inner, "last");
    ReadWords(s, e, y, ws);
    MoreWords(s, t, ["last"] + ws, e);
  }

  lemma PromptFollows(s: string, k: nat, d: nat, t: nat)
    requires Word(s, 0) == Some(("if", k)) && k <= |s| && Word(s, k) == Some(("loop", d)) && d <= |s| && ThisChar(s, d, '.') == Some(t) && t <= |s|
    requires Words(s, t, ["last", "and", "add_generation_prompt"]).Some? && AtEnd(s, Words(s, t, ["last", "and", "add_generation_prompt"]).value)
    ensures GenerationCondition(s) == Some(true)
  {
    hide Word, ThisChar, Words, AtEnd;
  }
}

// Templates written out from statements, and read back by the lexer, the trimming and the parser.

module ChatRoundTrip {
  import opened SizeT
  import opened ChatLexer
  import opened ChatExpression
  import opened ChatTemplate
  import opened ChatSource
  import opened ChatSpelling
  import opened ChatCompiler
  import opened ChatSupport
  import opened ChatBlocks
  import opened ChatFormatter

  // ---------------------------------------------------------------- statements as pieces

  // Every conditional has a branch, and only its first one may ask for the generation prompt.
  predicate Writable(ss: seq<Stmt>)
    decreases ss, 0
  {
    ss == [] || (WritableStmt(ss[0]) && Writable(ss[1..]))
  }

  predicate WritableStmt(s: Stmt)
    decreases s, 0
  {
    match s
    case Text(text) => true
    case Output(terms) => terms != []
    case For(body) => Writable(body)
    case If(branches) => branches != [] && WritableBranches(branches, true)
  }

  predicate WritableBranches(bs: seq<Branch>, first: bool)
    decreases bs, 0
  {
    bs == [] || ((first || bs[0].condition.RoleIs?) && Writable(bs[0].body) && WritableBranches(bs[1..], false))
  }

  function WordsPiece(y: Style, ws: seq<string>): Piece {
    BlockPiece([Plain(WordsText(y, ws))])
  }

  function ConditionChunks(y: Style, keyword: string, c: Condition): seq<Chunk> {
    match c
    case RoleIs(role) => RoleChunks(y, keyword, role)
    case LastAndPrompt => [Plain(PromptText(y))]
  }

  function OutputChunks(y: Style, terms: seq<Term>): seq<Chunk> {
    [Plain(y.gap)] + if terms == [] then [] else TermsChunks(y, terms)
  }

  function Written(y: Style, ss: seq<Stmt>): seq<Piece>
    decreases ss, 0
  {
    if ss == [] then [] else WrittenStmt(y, ss[0]) + Written(y, ss[1..])
  }

  function WrittenStmt(y: Style, s: Stmt): seq<Piece>
    decreases s, 0
  {
    match s
    case Text(text) => [TextPiece(text)]
    case Output(terms) => [OutputPiece(OutputChunks(y, terms))]
    case For(body) => [WordsPiece(y, LOOP_WORDS)] + (Written(y, body) + [WordsPiece(y, ["endfor"])])
    case If(branches) => WrittenBranches(y, "if", branches)
  }

  function WrittenBranches(y: Style, keyword: string, bs: seq<Branch>): seq<Piece>
    decreases bs, 0
  {
    if bs == [] then [WordsPiece(y, ["endif"])]
    else [BlockPiece(ConditionChunks(y, keyword, bs[0].condition))] + (Written(y, bs[0].body) + WrittenBranches(y, "elif", bs[1..]))
  }

  // ---------------------------------------------------------------- written statements match the grammar

  predicate IsPiece(y: Style, t: Token, p: Piece) {
    && t.text == PieceText(y, p)
    && t.kind == if p.TextPiece? then TextToken else if p.OutputPiece? then OutputToken else BlockToken
  }

  // The tokens from i on are those pieces.
  ghost predicate Reads(y: Style, ts: seq<Token>, i: nat, ps: seq<Piece>) {
    i + |ps| <= |ts| && forall k :: 0 <= k < |ps| ==> IsPiece(y, ts[i + k], ps[k])
  }

  lemma ReadsParts(y: Style, ts: seq<Token>, i: nat, a: seq<Piece>, b: seq<Piece>)
    requires Reads(y, ts, i, a + b)
    ensures Reads(y, ts, i, a) && Reads(y, ts, i + |a|, b)
  {
    hide IsPiece;
    forall k | 0 <= k < |a| ensures IsPiece(y, ts[i + k], a[k]) { assert (a + b)[k] == a[k]; }
    forall k | 0 <= k < |b| ensures IsPiece(y, ts[i + |a| + k], b[k]) { assert (a + b)[|a| + k] == b[k]; }
  }

  lemma ReadsOne(y: Style, ts: seq<Token>, i: nat, p: Piece)
    requires Reads(y, ts, i, [p])
    ensures i < |ts| && IsPiece(y, ts[i], p)
  {
    hide IsPiece;
    assert IsPiece(y, ts[i + 0], [p][0]);
  }

  lemma WordsToken(y: Style, t: Token, ws: seq<string>)
    requires StyleOk(y) && ws != [] && (forall k :: 0 <= k < |ws| ==> Identifier(ws[k])) && IsPiece(y, t, WordsPiece(y, ws))
    ensures IsWords(t, ws)
  {
    WordsRead(y, ws);
    SpellOne(y, Plain(WordsText(y, ws)));
    WordsTag(t, ws);
    hide IsWords, Word, WordsText, Identifier, OnlyWords, Spell;
  }

  lemma RoleToken(y: Style, t: Token, keyword: string, r: Role)
    requires StyleOk(y) && (keyword == "if" || keyword == "elif") && IsPiece(y, t, BlockPiece(RoleChunks(y, keyword, r)))
    ensures StartsWith(t, keyword) && ConditionOf(t.text) == Some(RoleIs(r))
  {
    hide Word, RoleCondition, GenerationCondition, RoleChunks, Spell;
    RoleRead(y, keyword, r);
  }

  lemma PromptToken(y: Style, t: Token)
    requires StyleOk(y) && IsPiece(y, t, BlockPiece([Plain(PromptText(y))]))
    ensures StartsWith(t, "if") && ConditionOf(t.text) == Some(LastAndPrompt)
  {
    hide Word, RoleCondition, GenerationCondition, PromptText, Spell;
    PromptRead(y);
    SpellOne(y, Plain(PromptText(y)));
  }

  lemma ConditionToken(y: Style, t: Token, keyword: string, c: Condition)
    requires StyleOk(y) && (keyword == "if" || (keyword == "elif" && c.RoleIs?)) && IsPiece(y, t, BlockPiece(ConditionChunks(y, keyword, c)))
    ensures IsCondition(t, keyword, c)
  {
    hide IsPiece, IsCondition, StartsWith, ConditionOf, RoleChunks, PromptText;
    ConditionTag(t, keyword, c);
    if c.RoleIs? { RoleToken(y, t, keyword, c.role); } else { PromptToken(y, t); }
  }

  lemma OutputSpelled(y: Style, terms: seq<Term>)
    requires terms != []
    ensures Spell(y, OutputChunks(y, terms)) == y.gap + Spell(y, TermsChunks(y, terms))
  {
    hide Spell, TermsChunks;
    SpellConcat(y, [Plain(y.gap)], TermsChunks(y, terms));
    SpellOne(y, Plain(y.gap));
  }

  lemma OutputReads(y: Style, terms: seq<Term>)
    requires StyleOk(y) && terms != []
    ensures OutputTerms(Spell(y, OutputChunks(y, terms)), 0) == Some(terms)
  {
    hide *;
    var s := Spell(y, OutputChunks(y, terms));
    OutputSpelled(y, terms);
    AtWhole(s);
    AtParts(s, 0, y.gap, Spell(y, TermsChunks(y, terms)));
    StyleBlanks(y);
    ReadTerms(s, 0, y.gap, y, terms);
  }

  lemma OutputTokenReads(y: Style, t: Token, terms: seq<Term>)
    requires StyleOk(y) && terms != [] && IsPiece(y, t, OutputPiece(OutputChunks(y, terms)))
    ensures IsOutput(t, terms)
  {
    hide OutputTerms, Spell, OutputChunks, IsOutput;
    OutputReads(y, terms);
    OutputTag(t, terms);
  }

  lemma WrittenSplit(y: Style, ss: seq<Stmt>)
    ensures Written(y, ss) == if ss == [] then [] else WrittenStmt(y, ss[0]) + Written(y, ss[1..])
    ensures Writable(ss) <==> ss == [] || (WritableStmt(ss[0]) && Writable(ss[1..]))
  {
  }

  lemma ReadsFit(y: Style, ts: seq<Token>, i: nat, ps: seq<Piece>)
    requires Reads(y, ts, i, ps)
    ensures i + |ps| <= |ts|
  {
  }

  // Written statements are what the grammar admits as those statements.
  lemma {:induction false} StmtsWritten(y: Style, ts: seq<Token>, i: nat, ss: seq<Stmt>)
    requires StyleOk(y) && Writable(ss) && Reads(y, ts, i, Written(y, ss))
    ensures Matches(ts, i, i + |Written(y, ss)|, ss)
    decreases ss, 1
  {
    hide *;
    WrittenSplit(y, ss);
    ReadsFit(y, ts, i, Written(y, ss));
    if ss == [] {
      NoStmts(ts, i, i);
    } else {
      ReadsParts(y, ts, i, WrittenStmt(y, ss[0]), Written(y, ss[1..]));
      var next := i + |WrittenStmt(y, ss[0])|;
      StmtWritten(y, ts, i, ss[0]);
      StmtsWritten(y, ts, next, ss[1..]);
      MatchesMore(ts, i, next, next + |Written(y, ss[1..])|, ss);
    }
  }

  lemma {:induction false} StmtWritten(y: Style, ts: seq<Token>, i: nat, s: Stmt)
    requires StyleOk(y) && WritableStmt(s) && Reads(y, ts, i, WrittenStmt(y, s))
    ensures i < i + |WrittenStmt(y, s)| <= |ts| && MatchesStmt(ts, i, i + |WrittenStmt(y, s)|, s)
    decreases s, 1
  {
    hide *;
    match s
    case Text(text) => TextWritten(y, ts, i, text);
    case Output(terms) => OutputWritten(y, ts, i, terms);
    case For(body) => ForMatches(y, ts, i, body);
    case If(branches) => IfMatches(y, ts, i, branches);
  }

  lemma TextWritten(y: Style, ts: seq<Token>, i: nat, text: string)
    requires Reads(y, ts, i, WrittenStmt(y, Text(text)))
    ensures |WrittenStmt(y, Text(text))| == 1 && i < |ts| && MatchesStmt(ts, i, i + 1, Text(text))
  {
    ReadsOne(y, ts, i, TextPiece(text));
  }

  lemma OutputWritten(y: Style, ts: seq<Token>, i: nat, terms: seq<Term>)
    requires StyleOk(y) && WritableStmt(Output(terms)) && Reads(y, ts, i, WrittenStmt(y, Output(terms)))
    ensures |WrittenStmt(y, Output(terms))| == 1 && i < |ts| && MatchesStmt(ts, i, i + 1, Output(terms))
  {
    hide IsPiece, OutputChunks, IsOutput, Reads;
    ReadsOne(y, ts, i, OutputPiece(OutputChunks(y, terms)));
    OutputTokenReads(y, ts[i], terms);
  }

  lemma ForWritten(y: Style, body: seq<Stmt>)
    ensures WrittenStmt(y, For(body)) == [WordsPiece(y, LOOP_WORDS)] + (Written(y, body) + [WordsPiece(y, ["endfor"])])
    ensures WritableStmt(For(body)) <==> Writable(body)
  {
  }

  lemma LoopWords()
    ensures LOOP_WORDS == ["for", "message", "in", "messages"]
  {
  }

  lemma ForMatches(y: Style, ts: seq<Token>, i: nat, body: seq<Stmt>)
    requires StyleOk(y) && WritableStmt(For(body)) && Reads(y, ts, i, WrittenStmt(y, For(body)))
    ensures i < i + |WrittenStmt(y, For(body))| <= |ts| && MatchesStmt(ts, i, i + |WrittenStmt(y, For(body))|, For(body))
    decreases body, 2
  {
    hide *;
    ForWritten(y, body);
    LoopWords();
    Keywords();
    FieldNames();
    var end := i + 1 + |Written(y, body)|;
    ReadsParts(y, ts, i, [WordsPiece(y, LOOP_WORDS)], Written(y, body) + [WordsPiece(y, ["endfor"])]);
    ReadsParts(y, ts, i + 1, Written(y, body), [WordsPiece(y, ["endfor"])]);
    ReadsOne(y, ts, i, WordsPiece(y, LOOP_WORDS));
    ReadsOne(y, ts, end, WordsPiece(y, ["endfor"]));
    WordsToken(y, ts[i], LOOP_WORDS);
    WordsToken(y, ts[end], ["endfor"]);
    StmtsWritten(y, ts, i + 1, body);
    ForParts(ts, i, end + 1, body);
  }

  lemma IfWritten(y: Style, bs: seq<Branch>)
    ensures WrittenStmt(y, If(bs)) == WrittenBranches(y, "if", bs)
    ensures WritableStmt(If(bs)) <==> bs != [] && WritableBranches(bs, true)
  {
  }

  lemma IfMatches(y: Style, ts: seq<Token>, i: nat, bs: seq<Branch>)
    requires StyleOk(y) && WritableStmt(If(bs)) && Reads(y, ts, i, WrittenStmt(y, If(bs)))
    ensures i < i + |WrittenStmt(y, If(bs))| <= |ts| && MatchesStmt(ts, i, i + |WrittenStmt(y, If(bs))|, If(bs))
    decreases bs, 2
  {
    hide *;
    IfWritten(y, bs);
    BranchesWritten(y, ts, i, "if", bs);
    IfParts(ts, i, i + |WrittenBranches(y, "if", bs)|, bs);
  }

  lemma BranchesSplit(y: Style, keyword: string, bs: seq<Branch>)
    requires bs != []
    ensures WrittenBranches(y, keyword, bs) ==
      [BlockPiece(ConditionChunks(y, keyword, bs[0].condition))] + (Written(y, bs[0].body) + WrittenBranches(y, "elif", bs[1..]))
    ensures forall first :: WritableBranches(bs, first) ==>
      (first || bs[0].condition.RoleIs?) && Writable(bs[0].body) && WritableBranches(bs[1..], false)
  {
  }

  lemma NoBranchesWritten(y: Style, keyword: string)
    ensures WrittenBranches(y, keyword, []) == [WordsPiece(y, ["endif"])]
  {
  }

  lemma {:induction false} BranchesWritten(y: Style, ts: seq<Token>, i: nat, keyword: string, bs: seq<Branch>)
    requires StyleOk(y) && (keyword == "if" || keyword == "elif") && WritableBranches(bs, keyword == "if")
    requires Reads(y, ts, i, WrittenBranches(y, keyword, bs))
    ensures i < i + |WrittenBranches(y, keyword, bs)| <= |ts| && MatchesBranches(ts, i, i + |WrittenBranches(y, keyword, bs)|, keyword, bs)
    decreases bs, 1
  {
    hide *;
    if bs == [] {
      NoBranchesWritten(y, keyword);
      ReadsOne(y, ts, i, WordsPiece(y, ["endif"]));
      Keywords();
      WordsToken(y, ts[i], ["endif"]);
      NoBranches(ts, i, i + 1, keyword);
    } else {
      BranchesSplit(y, keyword, bs);
      var head, body, tail := BlockPiece(ConditionChunks(y, keyword, bs[0].condition)), Written(y, bs[0].body), WrittenBranches(y, "elif", bs[1..]);
      ReadsParts(y, ts, i, [head], body + tail);
      ReadsParts(y, ts, i + 1, body, tail);
      ReadsOne(y, ts, i, head);
      ConditionToken(y, ts[i], keyword, bs[0].condition);
      StmtsWritten(y, ts, i + 1, bs[0].body);
      BranchesWritten(y, ts, i + 1 + |body|, "elif", bs[1..]);
      BranchesMore(ts, i, i + 1 + |body|, i + 1 + |body| + |tail|, keyword, bs);
    }
  }

  // ---------------------------------------------------------------- written tags can be lexed

  lemma PlainJoin(a: string, b: string)
    requires PlainOk(a) && PlainOk(b)
    ensures PlainOk(a + b)
  {
  }

  lemma BlanksPlain(g: string)
    requires Blanks(g)
    ensures PlainOk(g)
  {
  }

  lemma IdentifierPlain(w: string)
    requires Identifier(w)
    ensures PlainOk(w)
  {
  }

  lemma SymbolsPlain()
    ensures PlainOk(".") && PlainOk("[") && PlainOk("]") && PlainOk("+") && PlainOk("==")
  {
  }

  lemma {:induction false} WordsPlain(y: Style, ws: seq<string>)
    requires StyleOk(y) && forall k :: 0 <= k < |ws| ==> Identifier(ws[k])
    ensures PlainOk(WordsText(y, ws))
    decreases |ws|
  {
    hide *;
    StyleBlanks(y);
    WordsSplit(y, ws);
    BlanksPlain(y.gap);
    if ws != [] {
      IdentifierPlain(ws[0]);
      WordsPlain(y, ws[1..]);
      PlainJoin(ws[0], WordsText(y, ws[1..]));
      PlainJoin(y.gap, ws[0] + WordsText(y, ws[1..]));
    }
  }

  lemma PromptPlain(y: Style)
    requires StyleOk(y)
    ensures PlainOk(PromptText(y))
  {
    hide *;
    PromptSpelled(y);
    StyleBlanks(y);
    Keywords();
    SymbolsPlain();
    PromptIs();
    BlanksPlain(y.gap);
    BlanksPlain(y.inner);
    IdentifierPlain("if");
    IdentifierPlain("loop");
    IdentifierPlain("last");
    WordsPlain(y, PROMPT_WORDS);
    var last := "last" + WordsText(y, PROMPT_WORDS);
    PlainJoin("last", WordsText(y, PROMPT_WORDS));
    PlainJoin(y.inner, last);
    PlainJoin(".", y.inner + last);
    PlainJoin(y.inner, "." + (y.inner + last));
    var loop := "loop" + (y.inner + ("." + (y.inner + last)));
    PlainJoin("loop", y.inner + ("." + (y.inner + last)));
    PlainJoin(y.gap, loop);
    PlainJoin("if", y.gap + loop);
    PlainJoin(y.gap, "if" + (y.gap + loop));
  }

  lemma ChunksOne(c: Chunk)
    requires c.Plain? ==> PlainOk(c.text)
    ensures ChunksOk([c])
  {
  }

  lemma ChunksJoin(a: seq<Chunk>, b: seq<Chunk>)
    requires ChunksOk(a) && ChunksOk(b)
    ensures ChunksOk(a + b)
  {
    hide PlainOk;
  }

  lemma FieldIs(y: Style, name: string)
    ensures FieldChunks(y, name) == if y.dotted then [Plain("message" + (y.inner + ("." + (y.inner + name))))]
      else [Plain("message" + (y.inner + ("[" + y.inner)))] + ([Quoted(name)] + [Plain(y.inner + "]")])
  {
  }

  lemma FieldOk(y: Style, name: string)
    requires StyleOk(y) && Identifier(name)
    ensures ChunksOk(FieldChunks(y, name))
  {
    hide *;
    FieldIs(y, name);
    StyleBlanks(y);
    FieldNames();
    SymbolsPlain();
    BlanksPlain(y.inner);
    IdentifierPlain("message");
    IdentifierPlain(name);
    if y.dotted {
      PlainJoin(y.inner, name);
      PlainJoin(".", y.inner + name);
      PlainJoin(y.inner, "." + (y.inner + name));
      PlainJoin("message", y.inner + ("." + (y.inner + name)));
      ChunksOne(Plain("message" + (y.inner + ("." + (y.inner + name)))));
    } else {
      PlainJoin("[", y.inner);
      PlainJoin(y.inner, "[" + y.inner);
      PlainJoin("message", y.inner + ("[" + y.inner));
      PlainJoin(y.inner, "]");
      ChunksOne(Plain("message" + (y.inner + ("[" + y.inner))));
      ChunksOne(Quoted(name));
      ChunksOne(Plain(y.inner + "]"));
      ChunksJoin([Quoted(name)], [Plain(y.inner + "]")]);
      ChunksJoin([Plain("message" + (y.inner + ("[" + y.inner)))], [Quoted(name)] + [Plain(y.inner + "]")]);
    }
  }

  lemma TermIs(y: Style, t: Term)
    ensures TermChunks(y, t) == if t.Literal? then [Quoted(t.text)] else if t.Content? then FieldChunks(y, "content") else [Plain("eos_token")]
  {
  }

  lemma TermOk(y: Style, t: Term)
    requires StyleOk(y)
    ensures ChunksOk(TermChunks(y, t))
  {
    hide *;
    FieldNames();
    TermIs(y, t);
    if t.Literal? {
      ChunksOne(Quoted(t.text));
    } else if t.Content? {
      FieldOk(y, "content");
    } else {
      IdentifierPlain("eos_token");
      ChunksOne(Plain("eos_token"));
    }
  }

  lemma TermsIs(y: Style, ts: seq<Term>)
    requires ts != []
    ensures TermsChunks(y, ts) == if |ts| == 1 then TermChunks(y, ts[0]) + [Plain(y.gap)]
      else TermChunks(y, ts[0]) + ([Plain(y.gap + ("+" + y.gap))] + TermsChunks(y, ts[1..]))
  {
  }

  lemma {:induction false} TermsOk(y: Style, ts: seq<Term>)
    requires StyleOk(y) && ts != []
    ensures ChunksOk(TermsChunks(y, ts))
    decreases |ts|
  {
    hide *;
    TermsIs(y, ts);
    TermOk(y, ts[0]);
    StyleBlanks(y);
    BlanksPlain(y.gap);
    if |ts| == 1 {
      ChunksOne(Plain(y.gap));
      ChunksJoin(TermChunks(y, ts[0]), [Plain(y.gap)]);
    } else {
      SymbolsPlain();
      PlainJoin("+", y.gap);
      PlainJoin(y.gap, "+" + y.gap);
      ChunksOne(Plain(y.gap + ("+" + y.gap)));
      TermsOk(y, ts[1..]);
      ChunksJoin([Plain(y.gap + ("+" + y.gap))], TermsChunks(y, ts[1..]));
      ChunksJoin(TermChunks(y, ts[0]), [Plain(y.gap + ("+" + y.gap))] + TermsChunks(y, ts[1..]));
    }
  }

  lemma RoleIsChunks(y: Style, keyword: string, r: Role)
    ensures RoleChunks(y, keyword, r) == [Plain(y.gap + (keyword + y.gap))]
      + (FieldChunks(y, "role") + ([Plain(y.gap + ("==" + y.gap))] + ([Quoted(RoleName(r))] + [Plain(y.gap)])))
  {
    hide FieldChunks, RoleName;
  }

  lemma RoleOk(y: Style, keyword: string, r: Role)
    requires StyleOk(y) && Identifier(keyword)
    ensures ChunksOk(RoleChunks(y, keyword, r))
  {
    hide *;
    RoleIsChunks(y, keyword, r);
    FieldNames();
    StyleBlanks(y);
    SymbolsPlain();
    BlanksPlain(y.gap);
    IdentifierPlain(keyword);
    PlainJoin(keyword, y.gap);
    PlainJoin(y.gap, keyword + y.gap);
    PlainJoin("==", y.gap);
    PlainJoin(y.gap, "==" + y.gap);
    var a, b, c, d := Plain(y.gap + (keyword + y.gap)), Plain(y.gap + ("==" + y.gap)), Quoted(RoleName(r)), Plain(y.gap);
    ChunksOne(a);
    ChunksOne(b);
    ChunksOne(c);
    ChunksOne(d);
    FieldOk(y, "role");
    ChunksJoin([c], [d]);
    ChunksJoin([b], [c] + [d]);
    ChunksJoin(FieldChunks(y, "role"), [b] + ([c] + [d]));
    ChunksJoin([a], FieldChunks(y, "role") + ([b] + ([c] + [d])));
  }

  // A tag's text ends in a gap.
  predicate EndsIn(t: string, g: string) {
    |g| <= |t| && t[|t| - |g|..] == g
  }

  lemma EndsJoin(a: string, b: string, g: string)
    requires EndsIn(b, g)
    ensures EndsIn(a + b, g)
  {
  }

  lemma EndsSelf(g: string)
    ensures EndsIn(g, g)
  {
  }

  lemma GapFrames(g: string, x: string)
    requires Blanks(g) && g != "" && EndsIn(g + x, g)
    ensures g + x != "" && (g + x)[0] != '-' && (g + x)[|g + x| - 1] != '-'
  {
    var t := g + x;
    assert t[|t| - 1] == t[|t| - |g|..][|g| - 1];
  }

  // A tag of chunks without braces, quotes and percent signs that stands between blanks.
  lemma TagOk(y: Style, p: Piece, x: string)
    requires StyleOk(y) && !p.TextPiece? && ChunksOk(p.chunks) && Spell(y, p.chunks) == y.gap + x && EndsIn(y.gap + x, y.gap)
    ensures PieceOk(y, p)
  {
    hide Spell, ChunksOk, EndsIn;
    StyleBlanks(y);
    GapFrames(y.gap, x);
  }

  lemma {:induction false} WordsEnd(y: Style, ws: seq<string>)
    ensures EndsIn(WordsText(y, ws), y.gap)
    decreases |ws|
  {
    hide *;
    WordsSplit(y, ws);
    if ws == [] {
      EndsSelf(y.gap);
    } else {
      WordsEnd(y, ws[1..]);
      EndsJoin(ws[0], WordsText(y, ws[1..]), y.gap);
      EndsJoin(y.gap, ws[0] + WordsText(y, ws[1..]), y.gap);
    }
  }

  lemma WordsTagOk(y: Style, ws: seq<string>)
    requires StyleOk(y) && ws != [] && forall k :: 0 <= k < |ws| ==> Identifier(ws[k])
    ensures PieceOk(y, WordsPiece(y, ws))
  {
    hide *;
    WordsPieceIs(y, ws);
    WordsPlain(y, ws);
    WordsSplit(y, ws);
    WordsEnd(y, ws);
    ChunksOne(Plain(WordsText(y, ws)));
    SpellOne(y, Plain(WordsText(y, ws)));
    ChunkSpelled(y, Plain(WordsText(y, ws)));
    TagOk(y, WordsPiece(y, ws), ws[0] + WordsText(y, ws[1..]));
  }

  lemma WordsPieceIs(y: Style, ws: seq<string>)
    ensures WordsPiece(y, ws) == BlockPiece([Plain(WordsText(y, ws))])
  {
  }

  lemma PromptTagOk(y: Style)
    requires StyleOk(y)
    ensures PieceOk(y, BlockPiece([Plain(PromptText(y))]))
  {
    hide *;
    PromptPlain(y);
    PromptSpelled(y);
    var last := "last" + WordsText(y, PROMPT_WORDS);
    var x := "if" + (y.gap + ("loop" + (y.inner + ("." + (y.inner + last)))));
    WordsEnd(y, PROMPT_WORDS);
    EndsJoin("last", WordsText(y, PROMPT_WORDS), y.gap);
    EndsJoin(y.inner, last, y.gap);
    EndsJoin(".", y.inner + last, y.gap);
    EndsJoin(y.inner, "." + (y.inner + last), y.gap);
    EndsJoin("loop", y.inner + ("." + (y.inner + last)), y.gap);
    EndsJoin(y.gap, "loop" + (y.inner + ("." + (y.inner + last))), y.gap);
    EndsJoin("if", y.gap + ("loop" + (y.inner + ("." + (y.inner + last)))), y.gap);
    EndsJoin(y.gap, x, y.gap);
    ChunksOne(Plain(PromptText(y)));
    SpellOne(y, Plain(PromptText(y)));
    ChunkSpelled(y, Plain(PromptText(y)));
    TagOk(y, BlockPiece([Plain(PromptText(y))]), x);
  }

  lemma RoleTagOk(y: Style, keyword: string, r: Role)
    requires StyleOk(y) && Identifier(keyword)
    ensures PieceOk(y, BlockPiece(RoleChunks(y, keyword, r)))
  {
    hide *;
    RoleOk(y, keyword, r);
    RoleSpelled(y, keyword, r);
    var lit := [y.quote] + (QuoteAll(RoleName(r)) + [y.quote]);
    var tail := (y.gap + ("==" + y.gap)) + (lit + y.gap);
    var x := (keyword + y.gap) + (Spell(y, FieldChunks(y, "role")) + tail);
    Reassociate(y.gap, keyword + y.gap, Spell(y, FieldChunks(y, "role")) + tail);
    EndsSelf(y.gap);
    EndsJoin(lit, y.gap, y.gap);
    EndsJoin(y.gap + ("==" + y.gap), lit + y.gap, y.gap);
    EndsJoin(Spell(y, FieldChunks(y, "role")), tail, y.gap);
    EndsJoin(keyword + y.gap, Spell(y, FieldChunks(y, "role")) + tail, y.gap);
    EndsJoin(y.gap, x, y.gap);
    TagOk(y, BlockPiece(RoleChunks(y, keyword, r)), x);
  }

  lemma Reassociate(a: string, b: string, c: string)
    ensures (a + b) + c == a + (b + c)
  {
  }

  lemma {:induction false} TermsEnd(y: Style, ts: seq<Term>)
    requires ts != []
    ensures EndsIn(Spell(y, TermsChunks(y, ts)), y.gap)
    decreases |ts|
  {
    hide *;
    TermsSpelled(y, ts);
    if |ts| == 1 {
      EndsSelf(y.gap);
      EndsJoin(Spell(y, TermChunks(y, ts[0])), y.gap, y.gap);
    } else {
      TermsEnd(y, ts[1..]);
      var rest := Spell(y, TermsChunks(y, ts[1..]));
      EndsJoin(y.gap + ("+" + y.gap), rest, y.gap);
      EndsJoin(Spell(y, TermChunks(y, ts[0])), (y.gap + ("+" + y.gap)) + rest, y.gap);
    }
  }

  lemma OutputIs(y: Style, terms: seq<Term>)
    requires terms != []
    ensures OutputChunks(y, terms) == [Plain(y.gap)] + TermsChunks(y, terms)
  {
  }

  lemma OutputTagOk(y: Style, terms: seq<Term>)
    requires StyleOk(y) && terms != []
    ensures PieceOk(y, OutputPiece(OutputChunks(y, terms)))
  {
    hide *;
    OutputIs(y, terms);
    OutputSpelled(y, terms);
    StyleBlanks(y);
    BlanksPlain(y.gap);
    ChunksOne(Plain(y.gap));
    TermsOk(y, terms);
    ChunksJoin([Plain(y.gap)], TermsChunks(y, terms));
    TermsEnd(y, terms);
    EndsJoin(y.gap, Spell(y, TermsChunks(y, terms)), y.gap);
    TagOk(y, OutputPiece(OutputChunks(y, terms)), Spell(y, TermsChunks(y, terms)));
  }

  ghost predicate TagsOk(y: Style, ps: seq<Piece>) {
    forall k :: 0 <= k < |ps| && !ps[k].TextPiece? ==> PieceOk(y, ps[k])
  }

  lemma TagsJoin(y: Style, a: seq<Piece>, b: seq<Piece>)
    requires TagsOk(y, a) && TagsOk(y, b)
    ensures TagsOk(y, a + b)
  {
    hide PieceOk;
  }

  lemma TagsOne(y: Style, p: Piece)
    requires !p.TextPiece? ==> PieceOk(y, p)
    ensures TagsOk(y, [p])
  {
    hide PieceOk;
  }

  lemma NoTags(y: Style)
    ensures TagsOk(y, [])
  {
  }

  lemma {:induction false} WrittenTags(y: Style, ss: seq<Stmt>)
    requires StyleOk(y) && Writable(ss)
    ensures TagsOk(y, Written(y, ss))
    decreases ss, 1
  {
    hide *;
    WrittenSplit(y, ss);
    if ss == [] {
      NoTags(y);
    } else {
      StmtTags(y, ss[0]);
      WrittenTags(y, ss[1..]);
      TagsJoin(y, WrittenStmt(y, ss[0]), Written(y, ss[1..]));
    }
  }

  lemma SimpleWritten(y: Style, s: Stmt)
    ensures s.Text? ==> WrittenStmt(y, s) == [TextPiece(s.text)]
    ensures s.Output? ==> WrittenStmt(y, s) == [OutputPiece(OutputChunks(y, s.terms))] && (WritableStmt(s) ==> s.terms != [])
  {
    hide OutputChunks;
  }

  lemma {:induction false} StmtTags(y: Style, s: Stmt)
    requires StyleOk(y) && WritableStmt(s)
    ensures TagsOk(y, WrittenStmt(y, s))
    decreases s, 1
  {
    hide *;
    SimpleWritten(y, s);
    match s
    case Text(text) => TagsOne(y, TextPiece(text));
    case Output(terms) =>
      OutputTagOk(y, terms);
      TagsOne(y, OutputPiece(OutputChunks(y, terms)));
    case For(body) =>
      ForWritten(y, body);
      WrittenTags(y, body);
      KeywordTags(y);
      TagsJoin(y, Written(y, body), [WordsPiece(y, ["endfor"])]);
      TagsJoin(y, [WordsPiece(y, LOOP_WORDS)], Written(y, body) + [WordsPiece(y, ["endfor"])]);
    case If(branches) =>
      IfWritten(y, branches);
      BranchTags(y, "if", branches);
  }

  lemma KeywordTags(y: Style)
    requires StyleOk(y)
    ensures TagsOk(y, [WordsPiece(y, LOOP_WORDS)]) && TagsOk(y, [WordsPiece(y, ["endfor"])]) && TagsOk(y, [WordsPiece(y, ["endif"])])
  {
    hide *;
    Keywords();
    FieldNames();
    LoopWords();
    WordsTagOk(y, LOOP_WORDS);
    WordsTagOk(y, ["endfor"]);
    WordsTagOk(y, ["endif"]);
    TagsOne(y, WordsPiece(y, LOOP_WORDS));
    TagsOne(y, WordsPiece(y, ["endfor"]));
    TagsOne(y, WordsPiece(y, ["endif"]));
  }

  lemma ConditionTagOk(y: Style, keyword: string, c: Condition)
    requires StyleOk(y) && (keyword == "if" || keyword == "elif")
    ensures PieceOk(y, BlockPiece(ConditionChunks(y, keyword, c)))
  {
    hide PieceOk, RoleChunks, PromptText, Identifier;
    Keywords();
    if c.RoleIs? { RoleTagOk(y, keyword, c.role); } else { PromptTagOk(y); }
  }

  lemma {:induction false} BranchTags(y: Style, keyword: string, bs: seq<Branch>)
    requires StyleOk(y) && (keyword == "if" || keyword == "elif") && WritableBranches(bs, keyword == "if")
    ensures TagsOk(y, WrittenBranches(y, keyword, bs))
    decreases bs, 0
  {
    hide *;
    if bs == [] {
      NoBranchesWritten(y, keyword);
      KeywordTags(y);
    } else {
      BranchesSplit(y, keyword, bs);
      var head := BlockPiece(ConditionChunks(y, keyword, bs[0].condition));
      ConditionTagOk(y, keyword, bs[0].condition);
      TagsOne(y, head);
      WrittenTags(y, bs[0].body);
      BranchTags(y, "elif", bs[1..]);
      TagsJoin(y, Written(y, bs[0].body), WrittenBranches(y, "elif", bs[1..]));
      TagsJoin(y, [head], Written(y, bs[0].body) + WrittenBranches(y, "elif", bs[1..]));
    }
  }

  // ---------------------------------------------------------------- trimming and the round trip

  // The texts of a source: not empty, without an opening brace, and never two in a row.
  predicate TextsOk(ps: seq<Piece>) {
    && (forall k :: 0 <= k < |ps| && ps[k].TextPiece? ==> ps[k].text != "" && '{' !in ps[k].text)
    && forall k :: 0 <= k < |ps| - 1 ==> !(ps[k].TextPiece? && ps[k + 1].TextPiece?)
  }

  // What trimming leaves of text k: in front of a block a blank last line goes, then behind one a line break.
  ghost predicate TextBecomes(ps: seq<Piece>, k: nat, text: string)
    requires k < |ps| && ps[k].TextPiece?
  {
    exists middle: string :: BeforeBlock(ps, k, middle) && BehindBlock(ps, k, middle, text)
  }

  ghost predicate BeforeBlock(ps: seq<Piece>, k: nat, middle: string)
    requires k < |ps| && ps[k].TextPiece?
  {
    if k + 1 < |ps| && ps[k + 1].BlockPiece? then WithoutBlankLine(ps[k].text, k == 0, middle) else middle == ps[k].text
  }

  predicate BehindBlock(ps: seq<Piece>, k: nat, middle: string, text: string)
    requires k < |ps|
  {
    if k > 0 && ps[k - 1].BlockPiece? then WithoutBreak(middle, text) else text == middle
  }

  // The pieces qs are ps with every text trimmed.
  ghost predicate Trims(ps: seq<Piece>, qs: seq<Piece>) {
    |ps| == |qs| && forall k :: 0 <= k < |ps| ==>
      if ps[k].TextPiece? then qs[k].TextPiece? && TextBecomes(ps, k, qs[k].text) else qs[k] == ps[k]
  }

  // The blank last line starts at one place only.
  lemma BlankLineBreaks(s: string, first: bool, j: nat, k: nat)
    requires BlankLine(s, first, j) && j < k <= |s|
    ensures s[k - 1] != '\n'
  {
  }

  lemma OneBlankLine(s: string, first: bool, j: nat, k: nat)
    requires BlankLine(s, first, j) && BlankLine(s, first, k)
    ensures j == k
  {
    if j < k { BlankLineBreaks(s, first, j, k); } else if k < j { BlankLineBreaks(s, first, k, j); }
  }

  lemma BlankLineUnique(s: string, first: bool, a: string, b: string)
    requires WithoutBlankLine(s, first, a) && WithoutBlankLine(s, first, b)
    ensures a == b
  {
    if j: nat :| BlankLine(s, first, j) {
      forall k: nat | BlankLine(s, first, k) ensures j == k { OneBlankLine(s, first, j, k); }
    }
  }

  lemma BreakUnique(s: string, a: string, b: string)
    requires WithoutBreak(s, a) && WithoutBreak(s, b)
    ensures a == b
  {
    if s != "" && s[0] == '\n' {
      assert a == ("\n" + a)[1..] && b == ("\n" + b)[1..];
    }
  }

  lemma {:induction false} TokensAre(y: Style, ps: seq<Piece>, c: nat, k: nat)
    requires k < |ps| && forall j :: 0 <= j < |ps| ==> PieceSource(y, ps[j]) != ""
    ensures IsPiece(y, TokensAt(y, ps, c)[k], ps[k]) && TokensAt(y, ps, c)[k].offset >= c && (TokensAt(y, ps, c)[k].offset == c <==> k == 0)
    decreases |ps|
  {
    hide PieceText, PieceSource;
    if k > 0 {
      TokensAre(y, ps[1..], c + |PieceSource(y, ps[0])|, k - 1);
    }
  }

  lemma SourcesSpell(y: Style, ps: seq<Piece>)
    requires TextsOk(ps)
    ensures forall j :: 0 <= j < |ps| ==> PieceSource(y, ps[j]) != ""
  {
    hide Spell;
  }

  // The trimmed token is the piece, whatever was found between the two passes.
  lemma MiddleIs(ps: seq<Piece>, k: nat, a: string, b: string, text: string, other: string)
    requires k < |ps| && ps[k].TextPiece?
    requires BeforeBlock(ps, k, a) && BehindBlock(ps, k, a, text) && BeforeBlock(ps, k, b) && BehindBlock(ps, k, b, other)
    ensures text == other
  {
    hide WithoutBlankLine, WithoutBreak;
    if k + 1 < |ps| && ps[k + 1].BlockPiece? { BlankLineUnique(ps[k].text, k == 0, a, b); }
    assert a == b;
    if k > 0 && ps[k - 1].BlockPiece? { BreakUnique(a, text, other); }
  }

  // The kinds of the tokens around token k.
  lemma TokenAround(y: Style, ps: seq<Piece>, k: nat)
    requires TextsOk(ps) && k < |ps|
    ensures var ts := TokensAt(y, ps, 0);
      && IsPiece(y, ts[k], ps[k]) && (ts[k].offset == 0 <==> k == 0)
      && (k > 0 ==> (ts[k - 1].kind.BlockToken? <==> ps[k - 1].BlockPiece?))
      && (k + 1 < |ps| ==> (ts[k + 1].kind.BlockToken? <==> ps[k + 1].BlockPiece?))
  {
    hide PieceText, PieceSource, TokensAt, TextsOk;
    SourcesSpell(y, ps);
    TokensAre(y, ps, 0, k);
    if k > 0 { TokensAre(y, ps, 0, k - 1); }
    if k + 1 < |ps| { TokensAre(y, ps, 0, k + 1); }
  }

  lemma TextTrims(y: Style, ps: seq<Piece>, k: nat, text: string)
    requires TextsOk(ps) && k < |ps| && ps[k].TextPiece? && TextBecomes(ps, k, text)
    ensures Trim(TokensAt(y, ps, 0))[k].text == text && Trim(TokensAt(y, ps, 0))[k].kind == TextToken
  {
    hide WithoutBlankLine, WithoutBreak, PieceSource, TokensAt, Trim, TextsOk;
    var ts := TokensAt(y, ps, 0);
    TokenAround(y, ps, k);
    TextSource(y, ps[k]);
    var m := TrimMeans(ts, k);
    var middle: string :| BeforeBlock(ps, k, middle) && BehindBlock(ps, k, middle, text);
    assert BeforeBlock(ps, k, m) && BehindBlock(ps, k, m, Trim(ts)[k].text);
    MiddleIs(ps, k, m, middle, Trim(ts)[k].text, text);
  }

  lemma TrimReads(y: Style, ps: seq<Piece>, qs: seq<Piece>, k: nat)
    requires TextsOk(ps) && Trims(ps, qs) && k < |ps|
    ensures IsPiece(y, Trim(TokensAt(y, ps, 0))[k], qs[k])
  {
    hide TextBecomes, PieceSource, TokensAt, Trim, TextsOk, Spell;
    if ps[k].TextPiece? {
      TextTrims(y, ps, k, qs[k].text);
    } else {
      TokenAround(y, ps, k);
      var m := TrimMeans(TokensAt(y, ps, 0), k);
    }
  }

  lemma TrimReadsAll(y: Style, ps: seq<Piece>, qs: seq<Piece>)
    requires TextsOk(ps) && Trims(ps, qs)
    ensures |Trim(TokensAt(y, ps, 0))| == |qs| && Reads(y, Trim(TokensAt(y, ps, 0)), 0, qs)
  {
    hide TextsOk, IsPiece, TokensAt, Trim;
    forall k | 0 <= k < |qs| ensures IsPiece(y, Trim(TokensAt(y, ps, 0))[0 + k], qs[k]) { TrimReads(y, ps, qs, k); }
  }

  lemma SourceLexable(y: Style, ps: seq<Piece>, qs: seq<Piece>)
    requires TextsOk(ps) && Trims(ps, qs) && TagsOk(y, qs)
    ensures Lexable(y, ps)
  {
    hide TextBecomes, ChunksOk, Spell;
  }

  lemma StatementsAre(s: string, ts: seq<Token>, ss: seq<Stmt>)
    requires LexFrom(s, 0) == Some(ts) && Parse(Trim(ts)) == Some(ss)
    ensures Statements(s) == Some(ss)
  {
    hide LexFrom, Parse, Trim;
  }

  // A template that writes out statements is read as those statements, whatever the spacing, the quotes and
  // the form of field access, and whatever blank lines and line breaks around its blocks trimming takes away.
  lemma SourceReadsBack(y: Style, ps: seq<Piece>, ss: seq<Stmt>)
    requires StyleOk(y) && Writable(ss) && TextsOk(ps) && Trims(ps, Written(y, ss))
    ensures Statements(Source(y, ps)) == Some(ss)
  {
    hide *;
    var qs := Written(y, ss);
    var s, ts := Source(y, ps), TokensAt(y, ps, 0);
    WrittenTags(y, ss);
    SourceLexable(y, ps, qs);
    AtWhole(s);
    LexReads(s, 0, y, ps);
    TrimReadsAll(y, ps, qs);
    StmtsWritten(y, Trim(ts), 0, ss);
    ParseExact(Trim(ts), ss);
    StatementsAre(s, ts, ss);
  }

  // From statements to output: a supported template is accepted however it is written out, and formatting
  // with it renders its statements.
  lemma SourceFormats(y: Style, ps: seq<Piece>, ss: seq<Stmt>, eos: string, messages: seq<Message>, prompt: bool)
    requires StyleOk(y) && Writable(ss) && TextsOk(ps) && Trims(ps, Written(y, ss)) && Supported(ss) && RolesValid(messages)
    ensures Statements(Source(y, ps)) == Some(ss) && CompileStmts(ss, eos).Some? && AllRoles(CompileStmts(ss, eos).value.affixes)
    ensures FormatAll(CompileStmts(ss, eos).value, messages, prompt) == Render(ss, Env(messages, prompt, eos, None, false))
  {
    hide *;
    SourceReadsBack(y, ps, ss);
    CompileAccepts(ss, eos);
    CompiledRenders(ss, messages, prompt, eos);
  }
}

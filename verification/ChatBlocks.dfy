// The grammar of token lists, and the parser as exactly its reader.

module ChatBlocks {
  import opened SizeT
  import opened ChatLexer
  import opened ChatExpression
  import opened ChatGrammar
  import opened ChatTemplate

  // ---------------------------------------------------------------- the grammar

  ghost predicate IsTag(t: Token, ls: seq<Lexeme>) {
    t.kind.BlockToken? && Covers(t.text, 0, ls)
  }

  ghost predicate IsWords(t: Token, ws: seq<string>) {
    IsTag(t, Names(ws))
  }

  ghost predicate IsOutput(t: Token, terms: seq<Term>) {
    t.kind.OutputToken? && terms != [] && exists ds: seq<bool> :: |ds| == |terms| && Covers(t.text, 0, OutputLexemes(ds, terms))
  }

  // An if or elif with a condition; only an if can ask for the generation prompt.
  ghost predicate IsCondition(t: Token, keyword: string, c: Condition) {
    match c
    case RoleIs(role) => exists dotted :: IsTag(t, RoleLexemes(keyword, dotted, role))
    case LastAndPrompt => keyword == "if" && IsTag(t, PromptLexemes())
  }

  const LOOP_WORDS: seq<string> := ["for", "message", "in", "messages"]

  // The tokens from i to j are those statements, one after another.
  ghost predicate Matches(ts: seq<Token>, i: nat, j: nat, ss: seq<Stmt>)
    decreases ss, 0
  {
    if ss == [] then i == j <= |ts| else exists k: nat :: i < k <= |ts| && MatchesStmt(ts, i, k, ss[0]) && Matches(ts, k, j, ss[1..])
  }

  ghost predicate MatchesStmt(ts: seq<Token>, i: nat, j: nat, s: Stmt)
    requires i < j <= |ts|
    decreases s, 0
  {
    match s
    case Text(text) => j == i + 1 && ts[i].kind.TextToken? && ts[i].text == text
    case Output(terms) => j == i + 1 && IsOutput(ts[i], terms)
    case For(body) => j > i + 1 && IsWords(ts[i], LOOP_WORDS) && Matches(ts, i + 1, j - 1, body) && IsWords(ts[j - 1], ["endfor"])
    case If(branches) => branches != [] && MatchesBranches(ts, i, j, "if", branches)
  }

  // Branches from their keyword on, up to and including endif.
  ghost predicate MatchesBranches(ts: seq<Token>, i: nat, j: nat, keyword: string, bs: seq<Branch>)
    requires i < j <= |ts|
    decreases bs, 0
  {
    if bs == [] then j == i + 1 && IsWords(ts[i], ["endif"])
    else
      IsCondition(ts[i], keyword, bs[0].condition)
      && exists k: nat :: i < k < j && Matches(ts, i + 1, k, bs[0].body) && MatchesBranches(ts, k, j, "elif", bs[1..])
  }

  // ---------------------------------------------------------------- tags

  // A block tag of words, by the parser's tests.
  lemma WordsTag(t: Token, ws: seq<string>)
    requires ws != []
    ensures IsWords(t, ws) <==> t.kind.BlockToken? && OnlyWords(t.text, ws)
    ensures IsWords(t, ws) ==> Word(t.text, 0).Some? && Word(t.text, 0).value.0 == ws[0]
  {
    OnlyWordsExact(t.text, ws);
    hide Covers, Names, Word, AtEnd;
  }

  lemma LoopTag(t: Token)
    ensures IsWords(t, LOOP_WORDS) <==> t.kind.BlockToken? && Classify(t) == ForOpen && OnlyWords(t.text, ["for", "message", "in", "messages"])
  {
    WordsTag(t, LOOP_WORDS);
    hide IsWords, OnlyWords, Word;
  }

  lemma EndForTag(ts: seq<Token>, i: nat)
    requires i < |ts|
    ensures IsWords(ts[i], ["endfor"]) <==> EndsWith(ts, i, EndFor, "endfor")
    ensures IsWords(ts[i], ["endfor"]) ==> ts[i].kind.BlockToken? && Closes(Classify(ts[i]))
  {
    WordsTag(ts[i], ["endfor"]);
    hide IsWords, OnlyWords, Word;
  }

  lemma EndIfTag(ts: seq<Token>, i: nat)
    requires i < |ts|
    ensures IsWords(ts[i], ["endif"]) <==> EndsWith(ts, i, EndIf, "endif")
    ensures IsWords(ts[i], ["endif"]) ==> ts[i].kind.BlockToken? && Closes(Classify(ts[i])) && Classify(ts[i]) == EndIf
  {
    WordsTag(ts[i], ["endif"]);
    hide IsWords, OnlyWords, Word;
  }

  lemma OutputTag(t: Token, terms: seq<Term>)
    ensures IsOutput(t, terms) <==> t.kind.OutputToken? && Simple(t) == Some(Output(terms))
  {
    OutputExact(t.text, terms);
    hide OutputTerms, OutputLexemes, Covers;
  }

  // The keyword of a block tag.
  predicate StartsWith(t: Token, keyword: string) {
    t.kind.BlockToken? && Word(t.text, 0).Some? && Word(t.text, 0).value.0 == keyword
  }

  lemma RoleStarts(s: string, keyword: string, dotted: bool, r: Role)
    requires Covers(s, 0, RoleLexemes(keyword, dotted, r))
    ensures Word(s, 0).Some? && Word(s, 0).value.0 == keyword
  {
    CoversTaken(s, 0, RoleLexemes(keyword, dotted, r));
    hide Covers, RoleLexemes, AtEnd;
    RoleTaken(s, keyword, dotted, r);
    hide Word;
  }

  lemma PromptStarts(s: string)
    requires Covers(s, 0, PromptLexemes())
    ensures Word(s, 0).Some? && Word(s, 0).value.0 == "if"
  {
    CoversTaken(s, 0, PromptLexemes());
    hide Covers, PromptLexemes, AtEnd;
    PromptTaken(s);
    hide Word, Words, ThisChar;
  }

  // A role condition is none of the generation prompt.
  lemma RoleDeclines(s: string)
    requires RoleCondition(s).Some?
    ensures GenerationCondition(s) == Some(false)
  {
    hide Word, FieldName, FieldOf, Operator, StringLiteral, AtEnd, RoleOf, ThisChar, Words;
  }

  lemma RoleTag(t: Token, keyword: string, r: Role)
    requires keyword == "if" || keyword == "elif"
    ensures (exists dotted :: IsTag(t, RoleLexemes(keyword, dotted, r))) <==> StartsWith(t, keyword) && ConditionOf(t.text) == Some(RoleIs(r))
  {
    hide Covers, RoleLexemes, RoleCondition, GenerationCondition, Word;
    RoleConditionExact(t.text, r);
    if RoleCondition(t.text).Some? { RoleDeclines(t.text); }
    forall kw, dotted | Covers(t.text, 0, RoleLexemes(kw, dotted, r)) ensures Word(t.text, 0).Some? && Word(t.text, 0).value.0 == kw {
      RoleStarts(t.text, kw, dotted, r);
    }
    if StartsWith(t, keyword) && ConditionOf(t.text) == Some(RoleIs(r)) {
      var kw, dotted :| kw in ["if", "elif"] && Covers(t.text, 0, RoleLexemes(kw, dotted, r));
      assert IsTag(t, RoleLexemes(keyword, dotted, r));
    }
    if dotted :| IsTag(t, RoleLexemes(keyword, dotted, r)) {
      assert keyword in ["if", "elif"];
    }
  }

  lemma PromptTag(t: Token, keyword: string)
    requires keyword == "if" || keyword == "elif"
    ensures keyword == "if" && IsTag(t, PromptLexemes()) <==> StartsWith(t, keyword) && ConditionOf(t.text) == Some(LastAndPrompt)
  {
    GenerationConditionExact(t.text);
    if Covers(t.text, 0, PromptLexemes()) { PromptStarts(t.text); }
    hide Covers, PromptLexemes, RoleCondition, GenerationCondition, Word, StartsElse;
  }

  lemma ConditionTag(t: Token, keyword: string, c: Condition)
    requires keyword == "if" || keyword == "elif"
    ensures IsCondition(t, keyword, c) <==> StartsWith(t, keyword) && ConditionOf(t.text) == Some(c)
  {
    hide IsTag, StartsWith, ConditionOf, RoleLexemes, PromptLexemes;
    if c.RoleIs? { RoleTag(t, keyword, c.role); } else { PromptTag(t, keyword); }
  }

  lemma StartsIs(t: Token)
    ensures StartsWith(t, "if") <==> t.kind.BlockToken? && Classify(t) == IfOpen
    ensures StartsWith(t, "elif") <==> t.kind.BlockToken? && Classify(t) == Elif
  {
    hide Word;
  }

  // ---------------------------------------------------------------- what the grammar admits is parsed

  // Statement s stands at token i, and ends in front of token next.
  ghost predicate StepReads(ts: seq<Token>, i: nat, s: Stmt, next: nat) {
    i < next <= |ts| &&
    if !ts[i].kind.BlockToken? then Simple(ts[i]) == Some(s) && next == i + 1
    else !Closes(Classify(ts[i])) && ParseBlock(ts, i) == Some((s, next))
  }

  lemma StepParses(ts: seq<Token>, i: nat, s: Stmt, next: nat, rest: seq<Stmt>, end: nat)
    requires StepReads(ts, i, s, next) && ParseFrom(ts, next) == Some((rest, end))
    ensures ParseFrom(ts, i) == Some(([s] + rest, end))
  {
    hide Simple, Classify, ParseBlock;
  }

  // The list of statements ends at token i.
  predicate Ends(ts: seq<Token>, i: nat) {
    i == |ts| || (i < |ts| && ts[i].kind.BlockToken? && Closes(Classify(ts[i])))
  }

  lemma EndParses(ts: seq<Token>, i: nat)
    requires Ends(ts, i)
    ensures i <= |ts| && ParseFrom(ts, i) == Some(([], i))
  {
    hide Classify, ParseBlock;
  }

  lemma EndsHere(ts: seq<Token>, i: nat)
    requires i < |ts| && ts[i].kind.BlockToken? && Closes(Classify(ts[i]))
    ensures Ends(ts, i)
  {
  }

  lemma MatchesFirst(ts: seq<Token>, i: nat, j: nat, ss: seq<Stmt>) returns (k: nat)
    requires ss != [] && Matches(ts, i, j, ss)
    ensures i < k <= |ts| && MatchesStmt(ts, i, k, ss[0]) && Matches(ts, k, j, ss[1..])
  {
    k :| i < k <= |ts| && MatchesStmt(ts, i, k, ss[0]) && Matches(ts, k, j, ss[1..]);
  }

  lemma NoStmts(ts: seq<Token>, i: nat, j: nat)
    ensures Matches(ts, i, j, []) <==> i == j <= |ts|
  {
  }

  lemma {:induction false} StmtsParse(ts: seq<Token>, i: nat, j: nat, ss: seq<Stmt>)
    requires Matches(ts, i, j, ss) && Ends(ts, j)
    ensures i <= |ts| && ParseFrom(ts, i) == Some((ss, j))
    decreases ss, 1
  {
    hide *;
    if ss == [] {
      NoStmts(ts, i, j);
      EndParses(ts, i);
    } else {
      var k := MatchesFirst(ts, i, j, ss);
      StmtsParse(ts, k, j, ss[1..]);
      StmtParses(ts, i, k, ss[0]);
      StepParses(ts, i, ss[0], k, ss[1..], j);
      assert [ss[0]] + ss[1..] == ss;
    }
  }

  lemma {:induction false} StmtParses(ts: seq<Token>, i: nat, j: nat, s: Stmt)
    requires i < j <= |ts| && MatchesStmt(ts, i, j, s)
    ensures StepReads(ts, i, s, j)
    decreases s, 1
  {
    match s
    case Text(text) => TextParses(ts, i, j, text);
    case Output(terms) => OutputTag(ts[i], terms);
    case For(body) => ForParses(ts, i, j, body);
    case If(branches) => IfParses(ts, i, j, branches);
  }

  lemma TextParses(ts: seq<Token>, i: nat, j: nat, text: string)
    requires i < j <= |ts| && MatchesStmt(ts, i, j, Text(text))
    ensures StepReads(ts, i, Text(text), j)
  {
  }

  lemma ForParts(ts: seq<Token>, i: nat, j: nat, body: seq<Stmt>)
    requires i < j <= |ts|
    ensures MatchesStmt(ts, i, j, For(body)) <==>
      j > i + 1 && IsWords(ts[i], LOOP_WORDS) && Matches(ts, i + 1, j - 1, body) && IsWords(ts[j - 1], ["endfor"])
  {
  }

  lemma ForParses(ts: seq<Token>, i: nat, j: nat, body: seq<Stmt>)
    requires i < j <= |ts| && MatchesStmt(ts, i, j, For(body))
    ensures StepReads(ts, i, For(body), j)
    decreases body, 2
  {
    hide *;
    ForParts(ts, i, j, body);
    LoopTag(ts[i]);
    EndForTag(ts, j - 1);
    EndsHere(ts, j - 1);
    StmtsParse(ts, i + 1, j - 1, body);
    ForStep(ts, i, body, j - 1);
  }

  lemma ForStep(ts: seq<Token>, i: nat, body: seq<Stmt>, end: nat)
    requires i < end < |ts| && ts[i].kind.BlockToken? && Classify(ts[i]) == ForOpen && OnlyWords(ts[i].text, ["for", "message", "in", "messages"])
    requires ParseFrom(ts, i + 1) == Some((body, end)) && EndsWith(ts, end, EndFor, "endfor")
    ensures StepReads(ts, i, For(body), end + 1)
  {
    hide Classify, OnlyWords, ParseFrom, EndsWith;
  }

  lemma IfParts(ts: seq<Token>, i: nat, j: nat, bs: seq<Branch>)
    requires i < j <= |ts|
    ensures MatchesStmt(ts, i, j, If(bs)) <==> bs != [] && MatchesBranches(ts, i, j, "if", bs)
  {
  }

  lemma IfParses(ts: seq<Token>, i: nat, j: nat, bs: seq<Branch>)
    requires i < j <= |ts| && MatchesStmt(ts, i, j, If(bs))
    ensures StepReads(ts, i, If(bs), j)
    decreases bs, 2
  {
    hide *;
    IfParts(ts, i, j, bs);
    BranchesParse(ts, i, j, "if", bs);
    StartsIs(ts[i]);
    IfStep(ts, i, bs, j);
  }

  lemma IfStep(ts: seq<Token>, i: nat, bs: seq<Branch>, end: nat)
    requires i < |ts| && ts[i].kind.BlockToken? && Classify(ts[i]) == IfOpen && ParseBranches(ts, i) == Some((bs, end))
    ensures StepReads(ts, i, If(bs), end)
  {
    hide Classify, ParseBranches;
  }

  lemma BranchesFirst(ts: seq<Token>, i: nat, j: nat, keyword: string, bs: seq<Branch>) returns (k: nat)
    requires i < j <= |ts| && bs != [] && MatchesBranches(ts, i, j, keyword, bs)
    ensures IsCondition(ts[i], keyword, bs[0].condition) && i < k < j && Matches(ts, i + 1, k, bs[0].body) && MatchesBranches(ts, k, j, "elif", bs[1..])
  {
    k :| i < k < j && Matches(ts, i + 1, k, bs[0].body) && MatchesBranches(ts, k, j, "elif", bs[1..]);
  }

  lemma NoBranches(ts: seq<Token>, i: nat, j: nat, keyword: string)
    requires i < j <= |ts|
    ensures MatchesBranches(ts, i, j, keyword, []) <==> j == i + 1 && IsWords(ts[i], ["endif"])
  {
  }

  lemma {:induction false} BranchesParse(ts: seq<Token>, i: nat, j: nat, keyword: string, bs: seq<Branch>)
    requires i < j <= |ts| && (keyword == "if" || keyword == "elif") && bs != [] && MatchesBranches(ts, i, j, keyword, bs)
    ensures StartsWith(ts[i], keyword) && ParseBranches(ts, i) == Some((bs, j))
    decreases bs, 1
  {
    hide *;
    var k := BranchesFirst(ts, i, j, keyword, bs);
    ConditionTag(ts[i], keyword, bs[0].condition);
    if |bs| == 1 {
      assert bs[1..] == [];
      NoBranches(ts, k, j, "elif");
      EndIfTag(ts, k);
      EndsHere(ts, k);
      StmtsParse(ts, i + 1, k, bs[0].body);
      LastBranch(ts, i, bs, k);
    } else {
      BranchesParse(ts, k, j, "elif", bs[1..]);
      StartsIs(ts[k]);
      ElifCloses();
      EndsHere(ts, k);
      StmtsParse(ts, i + 1, k, bs[0].body);
      MoreBranches(ts, i, bs, k, j);
    }
  }

  lemma ElifCloses()
    ensures Closes(Elif)
  {
  }

  lemma LastBranch(ts: seq<Token>, i: nat, bs: seq<Branch>, end: nat)
    requires |bs| == 1 && i < end < |ts| && ConditionOf(ts[i].text) == Some(bs[0].condition) && ParseFrom(ts, i + 1) == Some((bs[0].body, end))
    requires Classify(ts[end]) == EndIf && EndsWith(ts, end, EndIf, "endif")
    ensures ParseBranches(ts, i) == Some((bs, end + 1))
  {
    hide Classify, ConditionOf, ParseFrom, EndsWith;
    assert [Branch(bs[0].condition, bs[0].body)] == bs;
  }

  lemma MoreBranches(ts: seq<Token>, i: nat, bs: seq<Branch>, mid: nat, end: nat)
    requires |bs| > 1 && i < mid < |ts| && ConditionOf(ts[i].text) == Some(bs[0].condition) && ParseFrom(ts, i + 1) == Some((bs[0].body, mid))
    requires Classify(ts[mid]) == Elif && ParseBranches(ts, mid) == Some((bs[1..], end))
    ensures ParseBranches(ts, i) == Some((bs, end))
  {
    hide Classify, ConditionOf, ParseFrom, EndsWith;
    assert [Branch(bs[0].condition, bs[0].body)] + bs[1..] == bs;
  }

  // ---------------------------------------------------------------- what is parsed the grammar admits

  lemma StepFound(ts: seq<Token>, i: nat, ss: seq<Stmt>, end: nat) returns (next: nat)
    requires i < |ts| && ParseFrom(ts, i) == Some((ss, end)) && ss != []
    ensures StepReads(ts, i, ss[0], next) && ParseFrom(ts, next) == Some((ss[1..], end))
  {
    hide Simple, Classify, ParseBlock;
    next := if !ts[i].kind.BlockToken? then i + 1 else ParseBlock(ts, i).value.1;
  }

  lemma NothingParsed(ts: seq<Token>, i: nat, end: nat)
    requires i <= |ts| && ParseFrom(ts, i) == Some(([], end))
    ensures i == end
  {
    hide Simple, Classify, ParseBlock;
  }

  lemma ParsedFits(ts: seq<Token>, i: nat, ss: seq<Stmt>, end: nat)
    requires i <= |ts| && ParseFrom(ts, i) == Some((ss, end))
    ensures i <= end <= |ts| && (ss != [] ==> i < |ts|)
  {
    hide Simple, Classify, ParseBlock;
  }

  lemma MatchesMore(ts: seq<Token>, i: nat, k: nat, j: nat, ss: seq<Stmt>)
    requires ss != [] && i < k <= |ts| && MatchesStmt(ts, i, k, ss[0]) && Matches(ts, k, j, ss[1..])
    ensures Matches(ts, i, j, ss)
  {
    hide MatchesStmt;
  }

  lemma StepFits(ts: seq<Token>, i: nat, s: Stmt, next: nat)
    requires StepReads(ts, i, s, next)
    ensures i < next <= |ts|
  {
    hide Simple, Classify, ParseBlock;
  }

  lemma {:induction false} StmtsMatch(ts: seq<Token>, i: nat, ss: seq<Stmt>, j: nat)
    requires i <= |ts| && ParseFrom(ts, i) == Some((ss, j))
    ensures Matches(ts, i, j, ss)
    decreases ss, 1
  {
    hide *;
    ParsedFits(ts, i, ss, j);
    if ss == [] {
      NothingParsed(ts, i, j);
      NoStmts(ts, i, j);
    } else {
      var k := StepFound(ts, i, ss, j);
      StepFits(ts, i, ss[0], k);
      StmtMatches(ts, i, ss[0], k);
      StmtsMatch(ts, k, ss[1..], j);
      MatchesMore(ts, i, k, j, ss);
    }
  }

  lemma {:induction false} StmtMatches(ts: seq<Token>, i: nat, s: Stmt, j: nat)
    requires i < j <= |ts| && StepReads(ts, i, s, j)
    ensures MatchesStmt(ts, i, j, s)
    decreases s, 1
  {
    hide *;
    match s
    case Text(text) => SimpleMatches(ts, i, s, j);
    case Output(terms) => SimpleMatches(ts, i, s, j);
    case For(body) =>
      ForFound(ts, i, body, j);
      StmtsMatch(ts, i + 1, body, j - 1);
      LoopTag(ts[i]);
      EndForTag(ts, j - 1);
      ForParts(ts, i, j, body);
    case If(branches) =>
      IfFound(ts, i, branches, j);
      StartsIs(ts[i]);
      BranchesMatch(ts, i, "if", branches, j);
      IfParts(ts, i, j, branches);
  }

  lemma SimpleMatches(ts: seq<Token>, i: nat, s: Stmt, j: nat)
    requires i < j <= |ts| && StepReads(ts, i, s, j) && (s.Text? || s.Output?)
    ensures MatchesStmt(ts, i, j, s)
  {
    if s.Output? { OutputTag(ts[i], s.terms); }
    hide Classify, ParseFrom, ParseBranches, OutputTerms, OnlyWords, EndsWith, IsOutput;
  }

  lemma ForFound(ts: seq<Token>, i: nat, body: seq<Stmt>, j: nat)
    requires StepReads(ts, i, For(body), j)
    ensures i + 1 < j <= |ts| && ts[i].kind.BlockToken? && Classify(ts[i]) == ForOpen && OnlyWords(ts[i].text, ["for", "message", "in", "messages"])
    ensures ParseFrom(ts, i + 1) == Some((body, j - 1)) && EndsWith(ts, j - 1, EndFor, "endfor")
  {
    hide Classify, ParseFrom, ParseBranches, OutputTerms, OnlyWords, EndsWith;
  }

  lemma IfFound(ts: seq<Token>, i: nat, bs: seq<Branch>, j: nat)
    requires StepReads(ts, i, If(bs), j)
    ensures i < j <= |ts| && ts[i].kind.BlockToken? && Classify(ts[i]) == IfOpen && ParseBranches(ts, i) == Some((bs, j)) && bs != []
  {
    hide Classify, ParseFrom, ParseBranches, OutputTerms, OnlyWords, EndsWith;
  }

  lemma BranchFound(ts: seq<Token>, i: nat, bs: seq<Branch>, j: nat) returns (k: nat)
    requires i < |ts| && ParseBranches(ts, i) == Some((bs, j))
    ensures bs != [] && i < k < j <= |ts| && ConditionOf(ts[i].text) == Some(bs[0].condition) && ParseFrom(ts, i + 1) == Some((bs[0].body, k))
    ensures if |bs| == 1 then EndsWith(ts, k, EndIf, "endif") && j == k + 1
            else Classify(ts[k]) == Elif && ParseBranches(ts, k) == Some((bs[1..], j))
  {
    hide Classify, ParseFrom, ConditionOf, OnlyWords, EndsWith;
    k := ParseFrom(ts, i + 1).value.1;
  }

  lemma BranchesMore(ts: seq<Token>, i: nat, k: nat, j: nat, keyword: string, bs: seq<Branch>)
    requires i < k < j <= |ts| && bs != [] && IsCondition(ts[i], keyword, bs[0].condition)
    requires Matches(ts, i + 1, k, bs[0].body) && MatchesBranches(ts, k, j, "elif", bs[1..])
    ensures MatchesBranches(ts, i, j, keyword, bs)
  {
    hide IsCondition, Matches;
  }

  lemma ElifIsBlock(t: Token)
    requires Classify(t) == Elif
    ensures t.kind.BlockToken?
  {
    hide Word;
  }

  lemma {:induction false} BranchesMatch(ts: seq<Token>, i: nat, keyword: string, bs: seq<Branch>, j: nat)
    requires i < j <= |ts| && (keyword == "if" || keyword == "elif") && StartsWith(ts[i], keyword) && ParseBranches(ts, i) == Some((bs, j))
    ensures bs != [] && MatchesBranches(ts, i, j, keyword, bs)
    decreases bs, 0
  {
    hide *;
    var k := BranchFound(ts, i, bs, j);
    ConditionTag(ts[i], keyword, bs[0].condition);
    StmtsMatch(ts, i + 1, bs[0].body, k);
    if |bs| == 1 {
      assert bs[1..] == [];
      EndIfTag(ts, k);
      NoBranches(ts, k, j, "elif");
    } else {
      ElifIsBlock(ts[k]);
      StartsIs(ts[k]);
      BranchesMatch(ts, k, "elif", bs[1..], j);
    }
    BranchesMore(ts, i, k, j, keyword, bs);
  }

  lemma EndsAtEnd(ts: seq<Token>)
    ensures Ends(ts, |ts|)
  {
  }

  lemma ParseIs(ts: seq<Token>, ss: seq<Stmt>)
    ensures Parse(ts) == Some(ss) <==> ParseFrom(ts, 0) == Some((ss, |ts|))
  {
    hide ParseFrom;
  }

  // The parser accepts exactly the token lists of the grammar, and returns their statements.
  lemma ParseExact(ts: seq<Token>, ss: seq<Stmt>)
    ensures Parse(ts) == Some(ss) <==> Matches(ts, 0, |ts|, ss)
  {
    hide *;
    ParseIs(ts, ss);
    if Matches(ts, 0, |ts|, ss) {
      EndsAtEnd(ts);
      StmtsParse(ts, 0, |ts|, ss);
    }
    if ParseFrom(ts, 0) == Some((ss, |ts|)) {
      StmtsMatch(ts, 0, ss, |ts|);
    }
  }
}

// The grammar of tag texts, by lexemes with blanks between them, and the parsers as exactly its readers.

module ChatGrammar {
  import opened SizeT
  import opened ChatExpression

  // ---------------------------------------------------------------- the grammar

  datatype Lexeme = Name(word: string) | Symbol(text: string) | Str(value: string)

  predicate IsName(w: string) {
    w != "" && IsStart(w[0]) && forall i :: 0 <= i < |w| ==> IsContinue(w[i])
  }

  // What stands between the quotes denotes v: backslash and a letter, or the character itself.
  predicate Denotes(body: string, quote: char, v: string) {
    if body == "" then v == ""
    else if body[0] == '\\' then |body| >= 2 && v != "" && Escape(body[1]) == Some(v[0]) && Denotes(body[2..], quote, v[1..])
    else body[0] != quote && v != "" && v[0] == body[0] && Denotes(body[1..], quote, v[1..])
  }

  // The lexeme stands from b to e; a name is as long as it can be.
  predicate Stands(s: string, b: nat, e: nat, l: Lexeme) {
    b <= e <= |s| &&
    match l
    case Name(w) => IsName(w) && s[b..e] == w && (e == |s| || !IsContinue(s[e]))
    case Symbol(text) => text != "" && !IsSpace(text[0]) && s[b..e] == text
    case Str(v) => b + 2 <= e && (s[b] == '\'' || s[b] == '"') && s[e - 1] == s[b] && Denotes(s[b + 1..e - 1], s[b], v)
  }

  predicate Gap(s: string, p: nat, b: nat) {
    p <= b <= |s| && forall k :: p <= k < b ==> IsSpace(s[k])
  }

  ghost predicate Next(s: string, p: nat, l: Lexeme, e: nat) {
    exists b: nat :: Gap(s, p, b) && Stands(s, b, e, l)
  }

  // The lexemes follow one another from p to the end, with blanks between them.
  ghost predicate Covers(s: string, p: nat, ls: seq<Lexeme>)
    decreases |ls|
  {
    if ls == [] then Gap(s, p, |s|) else exists e: nat :: Next(s, p, ls[0], e) && Covers(s, e, ls[1..])
  }

  // ---------------------------------------------------------------- reading one lexeme

  lemma {:induction false} SkipsGap(s: string, p: nat)
    requires p <= |s|
    ensures Gap(s, p, SkipSpace(s, p)) && (SkipSpace(s, p) == |s| || !IsSpace(s[SkipSpace(s, p)]))
    decreases |s| - p
  {
    if p < |s| && IsSpace(s[p]) { SkipsGap(s, p + 1); }
  }

  lemma GapsMeet(s: string, p: nat, b: nat, k: nat)
    requires Gap(s, p, b) && Gap(s, p, k) && (b == |s| || !IsSpace(s[b]))
    ensures k <= b
  {
  }

  lemma GapEnds(s: string, p: nat, b: nat)
    requires Gap(s, p, b) && (b == |s| || !IsSpace(s[b]))
    ensures p <= |s| && SkipSpace(s, p) == b
  {
    SkipsGap(s, p);
    GapsMeet(s, p, b, SkipSpace(s, p));
    GapsMeet(s, p, SkipSpace(s, p), b);
  }

  lemma StandsHere(s: string, b: nat, e: nat, l: Lexeme)
    requires Stands(s, b, e, l)
    ensures b < e <= |s| && !IsSpace(s[b])
  {
    match l
    case Name(w) =>
      assert s[b..e][0] == s[b];
      NameIsNoSpace(w);
    case Symbol(text) => assert s[b..e][0] == s[b];
    case Str(v) =>
  }

  lemma NameIsNoSpace(w: string)
    requires IsName(w)
    ensures !IsSpace(w[0])
  {
  }

  // The lexeme starts behind the blanks.
  lemma NextStarts(s: string, p: nat, l: Lexeme, e: nat)
    ensures Next(s, p, l, e) <==> p <= |s| && Stands(s, SkipSpace(s, p), e, l)
  {
    hide Stands, SkipSpace, IsSpace;
    if b: nat :| Gap(s, p, b) && Stands(s, b, e, l) {
      StandsHere(s, b, e, l);
      GapEnds(s, p, b);
    }
    if p <= |s| { SkipsGap(s, p); }
  }

  lemma {:induction false} WordEnds(s: string, b: nat)
    requires b <= |s|
    ensures (forall k :: b <= k < WordEnd(s, b) ==> IsContinue(s[k])) && (WordEnd(s, b) == |s| || !IsContinue(s[WordEnd(s, b)]))
    decreases |s| - b
  {
    hide IsContinue;
    if b < |s| && IsContinue(s[b]) { WordEnds(s, b + 1); }
  }

  lemma NameLetters(s: string, b: nat, e: nat)
    requires b < e <= |s| && IsName(s[b..e])
    ensures IsStart(s[b]) && forall k :: b <= k < e ==> IsContinue(s[k])
  {
    hide IsStart, IsContinue;
    assert s[b..e][0] == s[b];
    forall k | b <= k < e ensures IsContinue(s[k]) { assert s[b..e][k - b] == s[k]; }
  }

  lemma NameEnds(s: string, b: nat, e: nat)
    requires b < |s| && IsStart(s[b])
    ensures b < e <= |s| && IsName(s[b..e]) && (e == |s| || !IsContinue(s[e])) <==> WordEnd(s, b + 1) == e
  {
    WordEnds(s, b + 1);
    hide IsStart, WordEnd;
    var w := WordEnd(s, b + 1);
    assert IsContinue(s[b]);
    if w == e {
      forall i | 0 <= i < |s[b..e]| ensures IsContinue(s[b..e][i]) { assert s[b..e][i] == s[b + i]; }
    } else if b < e <= |s| && IsName(s[b..e]) {
      NameLetters(s, b, e);
    }
  }

  lemma WordReads(s: string, p: nat, w: string, e: nat)
    ensures Next(s, p, Name(w), e) <==> p <= |s| && Word(s, p) == Some((w, e))
  {
    hide IsStart, IsContinue, IsSpace, WordEnd, Next, SkipSpace;
    NextStarts(s, p, Name(w), e);
    if p <= |s| {
      var b := SkipSpace(s, p);
      if b < |s| && IsStart(s[b]) {
        NameEnds(s, b, e);
      } else if Stands(s, b, e, Name(w)) {
        StandsHere(s, b, e, Name(w));
        NameLetters(s, b, e);
      }
    }
  }

  lemma OperatorReads(s: string, p: nat, op: string, e: nat)
    requires op != "" && !IsSpace(op[0])
    ensures Next(s, p, Symbol(op), e) <==> p <= |s| && Operator(s, p, op) == Some(e)
  {
    hide IsSpace, Next, SkipSpace;
    NextStarts(s, p, Symbol(op), e);
  }

  // A literal's rest, up to the first quote that no backslash takes.
  lemma {:induction false} RestDenotes(s: string, p: nat, quote: char, v: string, e: nat)
    requires p <= |s| && quote != '\\'
    ensures StringRest(s, p, quote) == Some((v, e)) <==> p < e <= |s| && s[e - 1] == quote && Denotes(s[p..e - 1], quote, v)
    decreases |s| - p
  {
    hide Escape;
    if p < |s| {
      if s[p] == quote {
        EmptyBody(s, p, quote, v, e);
      } else if s[p] == '\\' {
        if p + 1 < |s| && Escape(s[p + 1]).Some? {
          HeadTail(v);
          RestDenotes(s, p + 2, quote, if v == "" then "" else v[1..], e);
          EscapedBody(s, p, quote, v, e);
        } else {
          NoEscape(s, p, quote, v, e);
        }
      } else {
        HeadTail(v);
        RestDenotes(s, p + 1, quote, if v == "" then "" else v[1..], e);
        PlainBody(s, p, quote, v, e);
      }
    }
  }

  lemma HeadTail(v: string)
    ensures v != "" ==> forall c: char, r: string :: [c] + r == v <==> c == v[0] && r == v[1..]
  {
    forall c: char, r: string | v != "" && [c] + r == v ensures c == v[0] && r == v[1..] {
      assert ([c] + r)[0] == c && ([c] + r)[1..] == r;
    }
  }

  lemma EmptyBody(s: string, p: nat, quote: char, v: string, e: nat)
    requires p < |s| && s[p] == quote && quote != '\\'
    ensures p < e <= |s| && s[e - 1] == quote && Denotes(s[p..e - 1], quote, v) <==> v == "" && e == p + 1
  {
    if p + 1 < e <= |s| { assert s[p..e - 1][0] == s[p]; }
  }

  lemma EscapedBody(s: string, p: nat, quote: char, v: string, e: nat)
    requires p + 1 < |s| && s[p] == '\\' && Escape(s[p + 1]).Some? && quote != '\\'
    ensures p < e <= |s| && s[e - 1] == quote && Denotes(s[p..e - 1], quote, v) <==>
      v != "" && v[0] == Escape(s[p + 1]).value && p + 2 < e <= |s| && s[e - 1] == quote && Denotes(s[p + 2..e - 1], quote, v[1..])
  {
    hide Escape;
    if p + 2 < e <= |s| {
      var body := s[p..e - 1];
      assert body[0] == '\\' && body[1] == s[p + 1] && body[2..] == s[p + 2..e - 1];
    } else if p + 1 < e <= |s| {
      assert s[p..e - 1] == [s[p]];
    }
  }

  lemma NoEscape(s: string, p: nat, quote: char, v: string, e: nat)
    requires p < |s| && s[p] == '\\' && quote != '\\' && (p + 1 == |s| || Escape(s[p + 1]).None?)
    ensures !(p < e <= |s| && s[e - 1] == quote && Denotes(s[p..e - 1], quote, v))
  {
    hide Escape;
    if p + 2 < e <= |s| {
      var body := s[p..e - 1];
      assert body[0] == '\\' && body[1] == s[p + 1];
    } else if p + 1 < e <= |s| {
      assert s[p..e - 1] == [s[p]];
    }
  }

  lemma PlainBody(s: string, p: nat, quote: char, v: string, e: nat)
    requires p < |s| && s[p] != quote && s[p] != '\\' && quote != '\\'
    ensures p < e <= |s| && s[e - 1] == quote && Denotes(s[p..e - 1], quote, v) <==>
      v != "" && v[0] == s[p] && p + 1 < e <= |s| && s[e - 1] == quote && Denotes(s[p + 1..e - 1], quote, v[1..])
  {
    if p + 1 < e <= |s| {
      var body := s[p..e - 1];
      assert body[0] == s[p] && body[1..] == s[p + 1..e - 1];
    }
  }

  lemma LiteralReads(s: string, p: nat, v: string, e: nat)
    ensures Next(s, p, Str(v), e) <==> p <= |s| && StringLiteral(s, p) == Some((v, e))
  {
    hide IsSpace, Next, SkipSpace, StringRest, Denotes;
    NextStarts(s, p, Str(v), e);
    if p <= |s| {
      var b := SkipSpace(s, p);
      if b < |s| && (s[b] == '\'' || s[b] == '"') { RestDenotes(s, b + 1, s[b], v, e); }
    }
  }

  // ---------------------------------------------------------------- reading several lexemes

  function Take(s: string, p: nat, l: Lexeme): (r: Option<nat>)
    requires p <= |s|
    ensures r.Some? ==> p <= r.value <= |s|
  {
    match l
    case Name(w) => ThisWord(s, p, w)
    case Symbol(text) => if text == "" || IsSpace(text[0]) then None else Operator(s, p, text)
    case Str(v) =>
      var read := StringLiteral(s, p);
      if read.None? || read.value.0 != v then None else Some(read.value.1)
  }

  function TakeAll(s: string, p: nat, ls: seq<Lexeme>): (r: Option<nat>)
    requires p <= |s|
    ensures r.Some? ==> p <= r.value <= |s|
    decreases |ls|
  {
    if ls == [] then Some(p)
    else
      var next := Take(s, p, ls[0]);
      if next.None? then None else TakeAll(s, next.value, ls[1..])
  }

  lemma TakeReads(s: string, p: nat, l: Lexeme, e: nat)
    ensures Next(s, p, l, e) <==> p <= |s| && Take(s, p, l) == Some(e)
  {
    hide Next, Word, Operator, StringLiteral, IsSpace;
    match l
    case Name(w) => WordReads(s, p, w, e);
    case Symbol(text) => if text != "" && !IsSpace(text[0]) { OperatorReads(s, p, text, e); } else { NoSymbol(s, p, text, e); }
    case Str(v) => LiteralReads(s, p, v, e);
  }

  lemma NoSymbol(s: string, p: nat, text: string, e: nat)
    requires text == "" || IsSpace(text[0])
    ensures !Next(s, p, Symbol(text), e)
  {
  }

  lemma GapToEnd(s: string, p: nat)
    ensures Gap(s, p, |s|) <==> p <= |s| && AtEnd(s, p)
  {
    hide IsSpace;
    if p <= |s| {
      SkipsGap(s, p);
      if Gap(s, p, |s|) { GapEnds(s, p, |s|); }
    }
  }

  lemma {:induction false} CoversTaken(s: string, p: nat, ls: seq<Lexeme>)
    ensures Covers(s, p, ls) <==> p <= |s| && TakeAll(s, p, ls).Some? && AtEnd(s, TakeAll(s, p, ls).value)
    decreases |ls|
  {
    hide Take, Next, Gap, AtEnd;
    if ls == [] {
      GapToEnd(s, p);
    } else {
      forall e: nat ensures Next(s, p, ls[0], e) <==> p <= |s| && Take(s, p, ls[0]) == Some(e) { TakeReads(s, p, ls[0], e); }
      if p <= |s| && Take(s, p, ls[0]).Some? {
        CoversTaken(s, Take(s, p, ls[0]).value, ls[1..]);
        assert Next(s, p, ls[0], Take(s, p, ls[0]).value);
      }
    }
  }

  function Then(s: string, at: Option<nat>, ls: seq<Lexeme>): (r: Option<nat>)
    requires at.Some? ==> at.value <= |s|
    ensures r.Some? ==> r.value <= |s|
  {
    if at.None? then None else TakeAll(s, at.value, ls)
  }

  lemma {:induction false} TakeConcat(s: string, p: nat, a: seq<Lexeme>, b: seq<Lexeme>)
    requires p <= |s|
    ensures TakeAll(s, p, a + b) == Then(s, TakeAll(s, p, a), b)
    decreases |a|
  {
    hide Take;
    if a == [] {
      assert a + b == b;
    } else {
      assert (a + b)[0] == a[0] && (a + b)[1..] == a[1..] + b;
      if Take(s, p, a[0]).Some? { TakeConcat(s, Take(s, p, a[0]).value, a[1..], b); }
    }
  }

  lemma TakeOne(s: string, p: nat, l: Lexeme)
    requires p <= |s|
    ensures TakeAll(s, p, [l]) == Take(s, p, l)
  {
    hide Take;
    if Take(s, p, l).Some? { assert TakeAll(s, Take(s, p, l).value, []) == Take(s, p, l); }
  }

  lemma TakeFirst(s: string, p: nat, l: Lexeme, ls: seq<Lexeme>)
    requires p <= |s|
    ensures TakeAll(s, p, [l] + ls) == Then(s, Take(s, p, l), ls)
  {
    hide Take;
    TakeOne(s, p, l);
    TakeConcat(s, p, [l], ls);
  }

  // ---------------------------------------------------------------- fields, terms and conditions

  function NameOf(f: Reference): string {
    match f
    case RoleField => "role"
    case ContentField => "content"
  }

  function NameOfRole(r: Role): string {
    match r
    case System => "system"
    case User => "user"
    case Assistant => "assistant"
  }

  // message.name, or message['name'] with a quoted name.
  function AccessLexemes(dotted: bool, name: string): seq<Lexeme> {
    if dotted then [Symbol(".")] + [Name(name)] else [Symbol("[")] + ([Str(name)] + [Symbol("]")])
  }

  function FieldLexemes(dotted: bool, f: Reference): seq<Lexeme> {
    [Name("message")] + AccessLexemes(dotted, NameOf(f))
  }

  lemma Symbols()
    ensures !IsSpace('.') && !IsSpace('[') && !IsSpace(']') && !IsSpace('+') && !IsSpace('=')
  {
  }

  lemma CharTaken(s: string, p: nat, c: char)
    requires p <= |s| && !IsSpace(c)
    ensures Take(s, p, Symbol([c])) == ThisChar(s, p, c)
  {
    hide SkipSpace, IsSpace;
  }

  lemma AccessTaken(s: string, p: nat, dotted: bool, name: string)
    requires p <= |s|
    ensures TakeAll(s, p, AccessLexemes(dotted, name)) ==
      if dotted then (var dot := ThisChar(s, p, '.'); if dot.None? then None else ThisWord(s, dot.value, name))
      else
        var open := ThisChar(s, p, '[');
        if open.None? then None
        else
          var read := StringLiteral(s, open.value);
          if read.None? || read.value.0 != name then None else ThisChar(s, read.value.1, ']')
  {
    Symbols();
    hide SkipSpace, IsSpace, TakeAll, ThisChar, ThisWord, StringLiteral, Operator;
    if dotted {
      CharTaken(s, p, '.');
      TakeFirst(s, p, Symbol("."), [Name(name)]);
      var dot := ThisChar(s, p, '.');
      if dot.Some? { TakeOne(s, dot.value, Name(name)); }
    } else {
      CharTaken(s, p, '[');
      TakeFirst(s, p, Symbol("["), [Str(name)] + [Symbol("]")]);
      var open := ThisChar(s, p, '[');
      if open.Some? {
        TakeFirst(s, open.value, Str(name), [Symbol("]")]);
        var read := StringLiteral(s, open.value);
        if read.Some? {
          TakeOne(s, read.value.1, Symbol("]"));
          CharTaken(s, read.value.1, ']');
        }
      }
    }
  }

  lemma {:induction false} SkipTwice(s: string, p: nat)
    requires p <= |s|
    ensures SkipSpace(s, SkipSpace(s, p)) == SkipSpace(s, p)
  {
    SkipsGap(s, p);
  }

  lemma CharSkips(s: string, p: nat, c: char)
    requires p <= |s|
    ensures ThisChar(s, SkipSpace(s, p), c) == ThisChar(s, p, c)
  {
    SkipTwice(s, p);
    hide SkipSpace;
  }

  lemma AccessReads(s: string, p: nat, name: string, e: nat)
    requires p <= |s|
    ensures FieldName(s, p) == Some((name, e)) <==>
      TakeAll(s, p, AccessLexemes(true, name)) == Some(e) || TakeAll(s, p, AccessLexemes(false, name)) == Some(e)
  {
    AccessTaken(s, p, true, name);
    AccessTaken(s, p, false, name);
    hide SkipSpace, TakeAll, StringLiteral, AccessLexemes, Word;
    CharSkips(s, p, '[');
  }

  lemma FieldNamesMatch(name: string, f: Reference)
    ensures FieldOf(name) == Some(f) <==> name == NameOf(f)
  {
  }

  lemma FieldReads(s: string, p: nat, f: Reference, e: nat)
    requires p <= |s|
    ensures MessageField(s, p) == Some((f, e)) <==> exists dotted :: TakeAll(s, p, FieldLexemes(dotted, f)) == Some(e)
  {
    hide FieldName, TakeAll, AccessLexemes, FieldOf, NameOf, ThisWord;
    forall dotted ensures TakeAll(s, p, FieldLexemes(dotted, f)) == Then(s, Take(s, p, Name("message")), AccessLexemes(dotted, NameOf(f))) {
      TakeFirst(s, p, Name("message"), AccessLexemes(dotted, NameOf(f)));
    }
    var variable := ThisWord(s, p, "message");
    if variable.Some? {
      AccessReads(s, variable.value, NameOf(f), e);
      var name := FieldName(s, variable.value);
      if name.Some? { FieldNamesMatch(name.value.0, f); }
    }
    assert TakeAll(s, p, FieldLexemes(true, f)) == Some(e) || TakeAll(s, p, FieldLexemes(false, f)) == Some(e) ==>
      exists dotted :: TakeAll(s, p, FieldLexemes(dotted, f)) == Some(e);
    forall dotted | TakeAll(s, p, FieldLexemes(dotted, f)) == Some(e)
      ensures TakeAll(s, p, FieldLexemes(true, f)) == Some(e) || TakeAll(s, p, FieldLexemes(false, f)) == Some(e)
    {
    }
  }

  // if or elif, the role field, ==, and the quoted name of the role.
  function RoleLexemes(keyword: string, dotted: bool, r: Role): seq<Lexeme> {
    [Name(keyword)] + (FieldLexemes(dotted, RoleField) + ([Symbol("==")] + [Str(NameOfRole(r))]))
  }

  lemma RoleNamesMatch(name: string, r: Role)
    ensures RoleOf(name) == Some(r) <==> name == NameOfRole(r)
  {
  }

  // The part of a role condition behind its field.
  function RoleBehind(s: string, p: nat): Option<Role>
    requires p <= |s|
  {
    var op := Operator(s, p, "==");
    if op.None? then None
    else
      var role := StringLiteral(s, op.value);
      if role.None? || !AtEnd(s, role.value.1) then None else RoleOf(role.value.0)
  }

  lemma BehindReads(s: string, p: nat, r: Role)
    requires p <= |s|
    ensures RoleBehind(s, p) == Some(r) <==>
      var e := TakeAll(s, p, [Symbol("==")] + [Str(NameOfRole(r))]); e.Some? && AtEnd(s, e.value)
  {
    Symbols();
    hide IsSpace, TakeAll, StringLiteral, Operator, AtEnd, RoleOf, NameOfRole;
    TakeFirst(s, p, Symbol("=="), [Str(NameOfRole(r))]);
    var op := Operator(s, p, "==");
    if op.Some? {
      TakeOne(s, op.value, Str(NameOfRole(r)));
      var name := StringLiteral(s, op.value);
      if name.Some? { RoleNamesMatch(name.value.0, r); }
    }
  }

  lemma RoleTaken(s: string, keyword: string, dotted: bool, r: Role)
    ensures TakeAll(s, 0, RoleLexemes(keyword, dotted, r)) ==
      var word := ThisWord(s, 0, keyword);
      if word.None? then None
      else Then(s, TakeAll(s, word.value, FieldLexemes(dotted, RoleField)), [Symbol("==")] + [Str(NameOfRole(r))])
  {
    hide TakeAll, FieldLexemes, ThisWord, NameOfRole;
    var tail := [Symbol("==")] + [Str(NameOfRole(r))];
    TakeFirst(s, 0, Name(keyword), FieldLexemes(dotted, RoleField) + tail);
    var word := ThisWord(s, 0, keyword);
    if word.Some? { TakeConcat(s, word.value, FieldLexemes(dotted, RoleField), tail); }
  }

  // A text is a role condition exactly when it consists of the lexemes of one.
  lemma RoleConditionExact(s: string, r: Role)
    ensures RoleCondition(s) == Some(r) <==>
      exists keyword, dotted :: keyword in ["if", "elif"] && Covers(s, 0, RoleLexemes(keyword, dotted, r))
  {
    hide TakeAll, FieldLexemes, MessageField, AtEnd, StringLiteral, Operator, RoleOf, Covers, RoleLexemes, RoleBehind, Word;
    forall keyword, dotted | keyword in ["if", "elif"] && Covers(s, 0, RoleLexemes(keyword, dotted, r)) ensures RoleCondition(s) == Some(r) {
      CoversTaken(s, 0, RoleLexemes(keyword, dotted, r));
      RoleTaken(s, keyword, dotted, r);
      var k := ThisWord(s, 0, keyword).value;
      var e := TakeAll(s, k, FieldLexemes(dotted, RoleField)).value;
      FieldReads(s, k, RoleField, e);
      BehindReads(s, e, r);
      BehindIs(s, keyword, k, e);
    }
    if RoleCondition(s) == Some(r) {
      var keyword, k := Word(s, 0).value.0, Word(s, 0).value.1;
      var e := MessageField(s, k).value.1;
      FieldReads(s, k, RoleField, e);
      var dotted :| TakeAll(s, k, FieldLexemes(dotted, RoleField)) == Some(e);
      BehindReads(s, e, r);
      BehindIs(s, keyword, k, e);
      RoleTaken(s, keyword, dotted, r);
      CoversTaken(s, 0, RoleLexemes(keyword, dotted, r));
      assert keyword in ["if", "elif"];
    }
  }

  lemma BehindIs(s: string, keyword: string, k: nat, e: nat)
    requires (keyword == "if" || keyword == "elif") && Word(s, 0) == Some((keyword, k)) && k <= |s| && MessageField(s, k) == Some((RoleField, e)) && e <= |s|
    ensures RoleCondition(s) == RoleBehind(s, e)
  {
    hide Word, MessageField, Operator, StringLiteral, AtEnd, RoleOf;
  }

  function Names(ws: seq<string>): (ls: seq<Lexeme>)
    ensures |ls| == |ws|
  {
    if ws == [] then [] else [Name(ws[0])] + Names(ws[1..])
  }

  lemma {:induction false} WordsTaken(s: string, p: nat, ws: seq<string>)
    requires p <= |s|
    ensures TakeAll(s, p, Names(ws)) == Words(s, p, ws)
    decreases |ws|
  {
    hide ThisWord;
    if ws != [] {
      assert Names(ws)[1..] == Names(ws[1..]);
      if ThisWord(s, p, ws[0]).Some? { WordsTaken(s, ThisWord(s, p, ws[0]).value, ws[1..]); }
    }
  }

  // A text is a list of words exactly when it consists of those names.
  lemma OnlyWordsExact(s: string, ws: seq<string>)
    ensures OnlyWords(s, ws) <==> Covers(s, 0, Names(ws))
  {
    hide TakeAll, Words, AtEnd, Covers, Names;
    CoversTaken(s, 0, Names(ws));
    WordsTaken(s, 0, ws);
  }

  // if loop.last and add_generation_prompt
  function PromptLexemes(): seq<Lexeme> {
    [Name("if")] + ([Name("loop")] + ([Symbol(".")] + Names(["last", "and", "add_generation_prompt"])))
  }

  // The text starts with another word, or with if and another word.
  ghost predicate StartsElse(s: string) {
    || (exists w: string, k: nat :: w != "if" && Next(s, 0, Name(w), k))
    || (exists w: string, k: nat, e: nat :: w != "loop" && Next(s, 0, Name("if"), k) && Next(s, k, Name(w), e))
  }

  lemma PromptTaken(s: string)
    ensures TakeAll(s, 0, PromptLexemes()) ==
      var word := ThisWord(s, 0, "if");
      if word.None? then None
      else
        var first := ThisWord(s, word.value, "loop");
        if first.None? then None
        else
          var dot := ThisChar(s, first.value, '.');
          if dot.None? then None else Words(s, dot.value, ["last", "and", "add_generation_prompt"])
  {
    hide TakeAll, ThisWord, ThisChar, Words, Operator, IsSpace, Names;
    Symbols();
    var words := Names(["last", "and", "add_generation_prompt"]);
    TakeFirst(s, 0, Name("if"), [Name("loop")] + ([Symbol(".")] + words));
    var word := ThisWord(s, 0, "if");
    if word.Some? {
      TakeFirst(s, word.value, Name("loop"), [Symbol(".")] + words);
      var first := ThisWord(s, word.value, "loop");
      if first.Some? {
        TakeFirst(s, first.value, Symbol("."), words);
        CharTaken(s, first.value, '.');
        var dot := ThisChar(s, first.value, '.');
        if dot.Some? { WordsTaken(s, dot.value, ["last", "and", "add_generation_prompt"]); }
      }
    }
  }

  // A text asks for the generation prompt exactly when it consists of those lexemes, and is left to the
  // other condition parser exactly when it starts differently.
  lemma GenerationConditionExact(s: string)
    ensures GenerationCondition(s) == Some(true) <==> Covers(s, 0, PromptLexemes())
    ensures GenerationCondition(s) == Some(false) <==> StartsElse(s)
  {
    hide TakeAll, Word, ThisChar, Words, AtEnd, Covers, PromptLexemes, StartsElse;
    CoversTaken(s, 0, PromptLexemes());
    PromptTaken(s);
    ElseReads(s);
  }

  lemma ElseReads(s: string)
    ensures StartsElse(s) <==>
      var first := Word(s, 0);
      first.Some? && (first.value.0 != "if" || (var second := Word(s, first.value.1); second.Some? && second.value.0 != "loop"))
  {
    hide Word, Next;
    forall w: string, k: nat ensures Next(s, 0, Name(w), k) <==> Word(s, 0) == Some((w, k)) { WordReads(s, 0, w, k); }
    var first := Word(s, 0);
    if first.Some? {
      var k := first.value.1;
      assert Next(s, 0, Name(first.value.0), k);
      forall w: string, e: nat ensures Next(s, k, Name(w), e) <==> Word(s, k) == Some((w, e)) { WordReads(s, k, w, e); }
      if Word(s, k).Some? { assert Next(s, k, Name(Word(s, k).value.0), Word(s, k).value.1); }
    }
  }

  function TermLexemes(dotted: bool, t: Term): seq<Lexeme> {
    match t
    case Literal(text) => [Str(text)]
    case Content => FieldLexemes(dotted, ContentField)
    case Eos => [Name("eos_token")]
  }

  // Operands joined by plus signs, each with its form of field access.
  function OutputLexemes(ds: seq<bool>, ts: seq<Term>): seq<Lexeme>
    requires |ds| == |ts| > 0
    decreases |ts|
  {
    if |ts| == 1 then TermLexemes(ds[0], ts[0])
    else TermLexemes(ds[0], ts[0]) + ([Symbol("+")] + OutputLexemes(ds[1..], ts[1..]))
  }

  lemma WordStart(s: string, p: nat, w: string)
    requires p <= |s| && ThisWord(s, p, w).Some?
    ensures w != "" && SkipSpace(s, p) < |s| && s[SkipSpace(s, p)] == w[0] && IsStart(w[0])
  {
    hide SkipSpace, WordEnd, IsStart;
    var b := SkipSpace(s, p);
    assert s[b..WordEnd(s, b + 1)][0] == s[b];
  }

  lemma SkippedStart(s: string, p: nat)
    requires p <= |s|
    ensures StringLiteral(s, SkipSpace(s, p)) == StringLiteral(s, p) && Word(s, SkipSpace(s, p)) == Word(s, p)
    ensures MessageField(s, SkipSpace(s, p)) == MessageField(s, p)
  {
    SkipTwice(s, p);
    hide SkipSpace, StringRest, WordEnd, FieldName, FieldOf;
  }

  lemma QuoteStarts(s: string, p: nat)
    requires p <= |s|
    ensures StringLiteral(s, p).Some? ==> SkipSpace(s, p) < |s| && (s[SkipSpace(s, p)] == '\'' || s[SkipSpace(s, p)] == '"')
  {
    hide SkipSpace, StringRest;
  }

  // An operand, whichever the form of its field access.
  lemma TermReads(s: string, p: nat, t: Term, e: nat)
    requires p <= |s|
    ensures OutputTerm(s, p) == Some((t, e)) <==> exists dotted :: TakeAll(s, p, TermLexemes(dotted, t)) == Some(e)
  {
    hide *;
    match t
    case Literal(text) =>
      LiteralTerm(s, p, text, e);
      forall dotted ensures TakeAll(s, p, TermLexemes(dotted, t)) == TakeAll(s, p, [Str(text)]) { TermLexemesAre(dotted, t); }
      assert TakeAll(s, p, TermLexemes(true, t)) == TakeAll(s, p, [Str(text)]);
    case Content =>
      ContentTerm(s, p, e);
      FieldReads(s, p, ContentField, e);
      forall dotted ensures TakeAll(s, p, TermLexemes(dotted, t)) == TakeAll(s, p, FieldLexemes(dotted, ContentField)) { TermLexemesAre(dotted, t); }
    case Eos =>
      EosTerm(s, p, e);
      forall dotted ensures TakeAll(s, p, TermLexemes(dotted, t)) == TakeAll(s, p, [Name("eos_token")]) { TermLexemesAre(dotted, t); }
      assert TakeAll(s, p, TermLexemes(true, t)) == TakeAll(s, p, [Name("eos_token")]);
  }

  lemma TermLexemesAre(dotted: bool, t: Term)
    ensures TermLexemes(dotted, t) ==
      if t.Literal? then [Str(t.text)] else if t.Content? then FieldLexemes(dotted, ContentField) else [Name("eos_token")]
  {
  }

  lemma LiteralTerm(s: string, p: nat, text: string, e: nat)
    requires p <= |s|
    ensures OutputTerm(s, p) == Some((Literal(text), e)) <==> TakeAll(s, p, [Str(text)]) == Some(e)
  {
    SkippedStart(s, p);
    QuoteStarts(s, p);
    TakeOne(s, p, Str(text));
    hide TakeAll, SkipSpace, StringLiteral, MessageField, ThisWord;
  }

  lemma ContentTerm(s: string, p: nat, e: nat)
    requires p <= |s|
    ensures OutputTerm(s, p) == Some((Content, e)) <==> MessageField(s, p) == Some((ContentField, e))
  {
    SkippedStart(s, p);
    if ThisWord(s, p, "message").Some? { WordStart(s, p, "message"); }
    hide SkipSpace, StringLiteral, ThisWord, FieldName, FieldOf;
  }

  lemma EosTerm(s: string, p: nat, e: nat)
    requires p <= |s|
    ensures OutputTerm(s, p) == Some((Eos, e)) <==> TakeAll(s, p, [Name("eos_token")]) == Some(e)
  {
    SkippedStart(s, p);
    TakeOne(s, p, Name("eos_token"));
    if ThisWord(s, p, "eos_token").Some? { WordStart(s, p, "eos_token"); }
    hide TakeAll, SkipSpace, StringLiteral, MessageField, Word;
  }

  lemma OneTerm(ds: seq<bool>, ts: seq<Term>)
    requires |ds| == |ts| > 0
    ensures OutputLexemes(ds, ts) == if |ts| == 1 then TermLexemes(ds[0], ts[0])
      else TermLexemes(ds[0], ts[0]) + ([Symbol("+")] + OutputLexemes(ds[1..], ts[1..]))
  {
  }

  ghost predicate Reading(s: string, p: nat, ds: seq<bool>, ts: seq<Term>)
    requires p <= |s| && |ds| == |ts| > 0
  {
    TakeAll(s, p, OutputLexemes(ds, ts)).Some? && AtEnd(s, TakeAll(s, p, OutputLexemes(ds, ts)).value)
  }

  lemma PlusAfter(s: string, p: nat, ds: seq<bool>, ts: seq<Term>)
    requires p <= |s| && |ds| == |ts| > 1
    ensures TakeAll(s, p, OutputLexemes(ds, ts)) ==
      var e := TakeAll(s, p, TermLexemes(ds[0], ts[0]));
      if e.None? then None
      else
        var plus := ThisChar(s, e.value, '+');
        if plus.None? then None else TakeAll(s, plus.value, OutputLexemes(ds[1..], ts[1..]))
  {
    hide *;
    OneTerm(ds, ts);
    Symbols();
    var rest := [Symbol("+")] + OutputLexemes(ds[1..], ts[1..]);
    TakeConcat(s, p, TermLexemes(ds[0], ts[0]), rest);
    var e := TakeAll(s, p, TermLexemes(ds[0], ts[0]));
    ThenIs(s, e, rest);
    if e.Some? {
      TakeFirst(s, e.value, Symbol("+"), OutputLexemes(ds[1..], ts[1..]));
      CharTaken(s, e.value, '+');
      ThenIs(s, Take(s, e.value, Symbol("+")), OutputLexemes(ds[1..], ts[1..]));
    }
  }

  lemma ThenIs(s: string, at: Option<nat>, ls: seq<Lexeme>)
    requires at.Some? ==> at.value <= |s|
    ensures Then(s, at, ls) == if at.None? then None else TakeAll(s, at.value, ls)
  {
  }

  // A plus sign is not the end.
  lemma PlusIsNotEnd(s: string, p: nat)
    requires p <= |s| && ThisChar(s, p, '+').Some?
    ensures !AtEnd(s, p)
  {
    hide SkipSpace;
  }

  lemma {:induction false} TermsRead(s: string, p: nat, ds: seq<bool>, ts: seq<Term>)
    requires p <= |s| && |ds| == |ts| > 0 && Reading(s, p, ds, ts)
    ensures OutputTerms(s, p) == Some(ts)
    decreases |ts|
  {
    hide TakeAll, AtEnd, OutputTerm, ThisChar, OutputLexemes, TermLexemes;
    var e := TakeAll(s, p, TermLexemes(ds[0], ts[0]));
    OneTerm(ds, ts);
    if |ts| > 1 { PlusAfter(s, p, ds, ts); }
    TermReads(s, p, ts[0], e.value);
    assert OutputTerm(s, p) == Some((ts[0], e.value));
    if |ts| == 1 {
      assert [ts[0]] == ts;
    } else {
      var plus := ThisChar(s, e.value, '+').value;
      PlusIsNotEnd(s, e.value);
      TermsRead(s, plus, ds[1..], ts[1..]);
      assert [ts[0]] + ts[1..] == ts;
    }
  }

  lemma {:induction false} TermsFound(s: string, p: nat, ts: seq<Term>) returns (ds: seq<bool>)
    requires p <= |s| && OutputTerms(s, p) == Some(ts)
    ensures |ds| == |ts| > 0 && Reading(s, p, ds, ts)
    decreases |s| - p
  {
    hide TakeAll, AtEnd, OutputTerm, ThisChar, OutputLexemes, TermLexemes;
    var term := OutputTerm(s, p).value;
    TermReads(s, p, term.0, term.1);
    var dotted :| TakeAll(s, p, TermLexemes(dotted, term.0)) == Some(term.1);
    if AtEnd(s, term.1) {
      ds := [dotted];
      assert ts == [term.0];
      OneTerm(ds, ts);
    } else {
      var plus := ThisChar(s, term.1, '+').value;
      var rest := OutputTerms(s, plus).value;
      assert ts == [term.0] + rest;
      var more := TermsFound(s, plus, rest);
      ds := [dotted] + more;
      assert ds[1..] == more && ts[1..] == rest;
      PlusAfter(s, p, ds, ts);
    }
  }

  // A text is an output of terms exactly when it consists of their lexemes with plus signs between them.
  lemma OutputExact(s: string, ts: seq<Term>)
    ensures OutputTerms(s, 0) == Some(ts) <==>
      ts != [] && exists ds: seq<bool> :: |ds| == |ts| && Covers(s, 0, OutputLexemes(ds, ts))
  {
    hide OutputTerms, TakeAll, AtEnd, Covers, OutputLexemes;
    forall ds: seq<bool> | |ds| == |ts| > 0 && Covers(s, 0, OutputLexemes(ds, ts)) ensures OutputTerms(s, 0) == Some(ts) {
      CoversTaken(s, 0, OutputLexemes(ds, ts));
      TermsRead(s, 0, ds, ts);
    }
    if OutputTerms(s, 0) == Some(ts) {
      var ds := TermsFound(s, 0, ts);
      CoversTaken(s, 0, OutputLexemes(ds, ts));
    }
  }
}

// The expressions inside template tags: a scanner with a position, and the parsers of the four
// kinds of tags. None stands for the template's rejection.

module ChatExpression {
  import opened SizeT

  datatype Role = System | User | Assistant

  datatype Reference = RoleField | ContentField

  datatype Term = Literal(text: string) | Content | Eos

  // ---------------------------------------------------------------- characters

  predicate IsSpace(c: char) {
    c == ' ' || c == '\t' || c == '\n' || c as int == 0x0B || c as int == 0x0C
  }

  predicate IsStart(c: char) {
    'a' <= c <= 'z' || 'A' <= c <= 'Z' || c == '_'
  }

  predicate IsContinue(c: char) {
    IsStart(c) || '0' <= c <= '9'
  }

  function RoleOf(s: string): Option<Role> {
    if s == "system" then Some(System)
    else if s == "user" then Some(User)
    else if s == "assistant" then Some(Assistant)
    else None
  }

  function Escape(c: char): Option<char> {
    if c == '\\' || c == '\'' || c == '"' then Some(c)
    else if c == 'n' then Some('\n')
    else if c == 'r' then Some('\r')
    else if c == 't' then Some('\t')
    else None
  }

  // ---------------------------------------------------------------- the grammar, from a position

  function SkipSpace(s: string, p: nat): (r: nat)
    requires p <= |s|
    ensures p <= r <= |s|
    decreases |s| - p
  {
    if p < |s| && IsSpace(s[p]) then SkipSpace(s, p + 1) else p
  }

  function WordEnd(s: string, p: nat): (r: nat)
    requires p <= |s|
    ensures p <= r <= |s|
    decreases |s| - p
  {
    if p < |s| && IsContinue(s[p]) then WordEnd(s, p + 1) else p
  }

  // An identifier and the place after it.
  function Word(s: string, p: nat): (r: Option<(string, nat)>)
    requires p <= |s|
    ensures r.Some? ==> p < r.value.1 <= |s|
  {
    var b := SkipSpace(s, p);
    if b == |s| || !IsStart(s[b]) then None else Some((s[b..WordEnd(s, b + 1)], WordEnd(s, b + 1)))
  }

  function ThisWord(s: string, p: nat, w: string): (r: Option<nat>)
    requires p <= |s|
    ensures r.Some? ==> p < r.value <= |s|
  {
    var word := Word(s, p);
    if word.None? || word.value.0 != w then None else Some(word.value.1)
  }

  function ThisChar(s: string, p: nat, c: char): (r: Option<nat>)
    requires p <= |s|
    ensures r.Some? ==> p < r.value <= |s|
  {
    var b := SkipSpace(s, p);
    if b == |s| || s[b] != c then None else Some(b + 1)
  }

  // The rest of a string literal after its opening quote.
  function StringRest(s: string, p: nat, quote: char): (r: Option<(string, nat)>)
    requires p <= |s|
    ensures r.Some? ==> p < r.value.1 <= |s|
    decreases |s| - p
  {
    if p == |s| then None
    else if s[p] == quote then Some(("", p + 1))
    else if s[p] == '\\' then
      if p + 1 == |s| || Escape(s[p + 1]).None? then None
      else
        var rest := StringRest(s, p + 2, quote);
        if rest.None? then None else Some(([Escape(s[p + 1]).value] + rest.value.0, rest.value.1))
    else
      var rest := StringRest(s, p + 1, quote);
      if rest.None? then None else Some(([s[p]] + rest.value.0, rest.value.1))
  }

  function StringLiteral(s: string, p: nat): (r: Option<(string, nat)>)
    requires p <= |s|
    ensures r.Some? ==> p < r.value.1 <= |s|
  {
    var b := SkipSpace(s, p);
    if b == |s| || (s[b] != '\'' && s[b] != '"') then None else StringRest(s, b + 1, s[b])
  }

  function FieldOf(name: string): Option<Reference> {
    if name == "role" then Some(RoleField) else if name == "content" then Some(ContentField) else None
  }

  // The field name after `message`, with a dot or as a quoted subscript.
  function FieldName(s: string, p: nat): (r: Option<(string, nat)>)
    requires p <= |s|
    ensures r.Some? ==> p < r.value.1 <= |s|
  {
    var b := SkipSpace(s, p);
    if b < |s| && s[b] == '.' then Word(s, b + 1)
    else
      var open := ThisChar(s, b, '[');
      if open.None? then None
      else
        var name := StringLiteral(s, open.value);
        if name.None? then None
        else
          var close := ThisChar(s, name.value.1, ']');
          if close.None? then None else Some((name.value.0, close.value))
  }

  function MessageField(s: string, p: nat): (r: Option<(Reference, nat)>)
    requires p <= |s|
    ensures r.Some? ==> p < r.value.1 <= |s|
  {
    var variable := ThisWord(s, p, "message");
    if variable.None? then None
    else
      var name := FieldName(s, variable.value);
      if name.None? || FieldOf(name.value.0).None? then None else Some((FieldOf(name.value.0).value, name.value.1))
  }

  function Operator(s: string, p: nat, op: string): (r: Option<nat>)
    requires p <= |s|
    ensures r.Some? ==> p <= r.value <= |s|
  {
    var b := SkipSpace(s, p);
    if b + |op| <= |s| && s[b..b + |op|] == op then Some(b + |op|) else None
  }

  predicate AtEnd(s: string, p: nat)
    requires p <= |s|
  {
    SkipSpace(s, p) == |s|
  }

  // ---------------------------------------------------------------- tags

  function Words(s: string, p: nat, ws: seq<string>): (r: Option<nat>)
    requires p <= |s|
    ensures r.Some? ==> p <= r.value <= |s|
    decreases |ws|
  {
    if ws == [] then Some(p)
    else
      var next := ThisWord(s, p, ws[0]);
      if next.None? then None else Words(s, next.value, ws[1..])
  }

  predicate OnlyWords(s: string, ws: seq<string>) {
    Words(s, 0, ws).Some? && AtEnd(s, Words(s, 0, ws).value)
  }

  // if or elif, message.role == a quoted role
  function RoleCondition(s: string): Option<Role> {
    var keyword := Word(s, 0);
    if keyword.None? || (keyword.value.0 != "if" && keyword.value.0 != "elif") then None
    else
      var field := MessageField(s, keyword.value.1);
      if field.None? || field.value.0 != RoleField then None
      else
        var op := Operator(s, field.value.1, "==");
        if op.None? then None
        else
          var role := StringLiteral(s, op.value);
          if role.None? || !AtEnd(s, role.value.1) then None else RoleOf(role.value.0)
  }

  // if loop.last and add_generation_prompt; a condition on something else is Some(false).
  function GenerationCondition(s: string): Option<bool> {
    var keyword := Word(s, 0);
    if keyword.None? then None
    else if keyword.value.0 != "if" then Some(false)
    else
      var first := Word(s, keyword.value.1);
      if first.None? then None
      else if first.value.0 != "loop" then Some(false)
      else
        var dot := ThisChar(s, first.value.1, '.');
        if dot.None? then None
        else
          var rest := Words(s, dot.value, ["last", "and", "add_generation_prompt"]);
          if rest.None? || !AtEnd(s, rest.value) then None else Some(true)
  }

  // One operand of a concatenation.
  function OutputTerm(s: string, p: nat): (r: Option<(Term, nat)>)
    requires p <= |s|
    ensures r.Some? ==> p < r.value.1 <= |s|
  {
    var b := SkipSpace(s, p);
    if b == |s| then None
    else if s[b] == '\'' || s[b] == '"' then
      var text := StringLiteral(s, b);
      if text.None? then None else Some((Literal(text.value.0), text.value.1))
    else if s[b] == 'm' then
      var field := MessageField(s, b);
      if field.None? || field.value.0 != ContentField then None else Some((Content, field.value.1))
    else
      var word := ThisWord(s, b, "eos_token");
      if word.None? then None else Some((Eos, word.value))
  }

  datatype Operand = BadOperand | LastOperand(term: Term) | NextOperand(term: Term, next: nat)

  // An operand, and whether a plus and another one follow.
  function OperandAt(s: string, p: nat): (r: Operand)
    requires p <= |s|
    ensures r.NextOperand? ==> p < r.next <= |s|
  {
    var term := OutputTerm(s, p);
    if term.None? then BadOperand
    else if AtEnd(s, term.value.1) then LastOperand(term.value.0)
    else
      var plus := ThisChar(s, term.value.1, '+');
      if plus.None? then BadOperand else NextOperand(term.value.0, plus.value)
  }

  function OutputTerms(s: string, p: nat): Option<seq<Term>>
    requires p <= |s|
    decreases |s| - p
  {
    match OperandAt(s, p)
    case BadOperand => None
    case LastOperand(term) => Some([term])
    case NextOperand(term, next) => PrependTerms([term], OutputTerms(s, next))
  }

  function PrependTerms(ts: seq<Term>, rest: Option<seq<Term>>): Option<seq<Term>> {
    if rest.None? then None else Some(ts + rest.value)
  }

  // ---------------------------------------------------------------- quoting

  // A literal as it can be written in a template.
  function Quote(c: char): string {
    if c == '\\' || c == '\'' || c == '"' then ['\\', c]
    else if c == '\n' then ['\\', 'n']
    else if c == '\r' then ['\\', 'r']
    else if c == '\t' then ['\\', 't']
    else [c]
  }

  function QuoteAll(v: string): string {
    if v == "" then "" else Quote(v[0]) + QuoteAll(v[1..])
  }

  lemma {:induction false} QuotedRest(pre: string, v: string, post: string, quote: char)
    requires quote == '\'' || quote == '"'
    ensures var s := pre + QuoteAll(v) + [quote] + post;
      StringRest(s, |pre|, quote) == Some((v, |pre| + |QuoteAll(v)| + 1))
    decreases |v|
  {
    hide StringRest, Quote;
    var s := pre + QuoteAll(v) + [quote] + post;
    if v == "" {
      assert s[|pre|] == quote;
      QuoteEnds(s, |pre|, quote);
    } else {
      var q := Quote(v[0]);
      QuotedRest(pre + q, v[1..], post, quote);
      assert s == (pre + q) + QuoteAll(v[1..]) + [quote] + post;
      assert s[|pre|..|pre| + |q|] == q;
      QuotedOne(s, |pre|, v[0], quote);
      assert v == [v[0]] + v[1..];
    }
  }

  lemma QuoteEnds(s: string, p: nat, quote: char)
    requires p < |s| && s[p] == quote
    ensures StringRest(s, p, quote) == Some(("", p + 1))
  {
  }

  // One quoted character is read as that character.
  lemma QuotedOne(s: string, p: nat, c: char, quote: char)
    requires quote == '\'' || quote == '"'
    requires p + |Quote(c)| <= |s| && s[p..p + |Quote(c)|] == Quote(c)
    ensures var rest := StringRest(s, p + |Quote(c)|, quote);
      StringRest(s, p, quote) == if rest.None? then None else Some(([c] + rest.value.0, rest.value.1))
  {
    var q := Quote(c);
    assert s[p] == s[p..p + |q|][0] == q[0] && (|q| == 2 ==> s[p + 1] == s[p..p + |q|][1] == q[1]);
  }

  // Every string has a literal that the parser reads back, in either kind of quotes.
  lemma QuotedReadsBack(v: string, quote: char)
    requires quote == '\'' || quote == '"'
    ensures StringLiteral([quote] + QuoteAll(v) + [quote], 0) == Some((v, |QuoteAll(v)| + 2))
  {
    var s := [quote] + QuoteAll(v) + [quote];
    QuotedRest([quote], v, "", quote);
    assert s == [quote] + QuoteAll(v) + [quote] + "";
    assert s[0] == quote && SkipSpace(s, 0) == 0;
  }

  // ---------------------------------------------------------------- the parser

  // The scanner's methods advance the position; ok is false where the source rejects the template.
  class ExpressionParser {
    const expression: string
    var position: nat

    constructor (expression: string)
      ensures this.expression == expression && position == 0
    {
      this.expression, position := expression, 0;
    }

    method Skip()
      requires position <= |expression|
      modifies this
      ensures position == SkipSpace(expression, old(position))
    {
      while position < |expression| && IsSpace(expression[position])
        invariant position <= |expression|
        invariant SkipSpace(expression, position) == SkipSpace(expression, old(position))
      {
        position := position + 1;
      }
    }

    method ReadWord() returns (word: Option<string>)
      requires position <= |expression|
      modifies this
      ensures position <= |expression|
      ensures var r := Word(expression, old(position)); word == (if r.None? then None else Some(r.value.0)) && (r.Some? ==> position == r.value.1)
    {
      Skip();
      if position == |expression| || !IsStart(expression[position]) {
        return None;
      }
      var begin := position;
      position := position + 1;
      while position < |expression| && IsContinue(expression[position])
        invariant begin < position <= |expression|
        invariant WordEnd(expression, position) == WordEnd(expression, begin + 1)
      {
        position := position + 1;
      }
      word := Some(expression[begin..position]);
    }

    method ExpectWord(expected: string) returns (ok: bool)
      requires position <= |expression|
      modifies this
      ensures position <= |expression|
      ensures var r := ThisWord(expression, old(position), expected); ok == r.Some? && (ok ==> position == r.value)
    {
      var actual := ReadWord();
      ok := actual == Some(expected);
    }

    method ExpectCharacter(expected: char) returns (ok: bool)
      requires position <= |expression|
      modifies this
      ensures position <= |expression|
      ensures var r := ThisChar(expression, old(position), expected); ok == r.Some? && (ok ==> position == r.value)
    {
      Skip();
      if position == |expression| || expression[position] != expected {
        return false;
      }
      position := position + 1;
      ok := true;
    }

    method ParseString() returns (text: Option<string>)
      requires position <= |expression|
      modifies this
      ensures position <= |expression|
      ensures var r := StringLiteral(expression, old(position));
        text == (if r.None? then None else Some(r.value.0)) && (r.Some? ==> position == r.value.1)
    {
      Skip();
      if position == |expression| || (expression[position] != '\'' && expression[position] != '"') {
        return None;
      }
      var quote := expression[position];
      position := position + 1;
      ghost var begin := position;
      var value := "";
      PrependNothing(StringRest(expression, begin, quote));
      while position < |expression|
        invariant begin <= position <= |expression|
        invariant StringRest(expression, begin, quote) == PrependText(value, StringRest(expression, position, quote))
        decreases |expression| - position
      {
        PrependSteps(expression, position, quote, value);
        var current := expression[position];
        position := position + 1;
        if current == quote {
          return Some(value);
        }
        if current == '\\' {
          if position == |expression| {
            return None;
          }
          var escaped := Escape(expression[position]);
          position := position + 1;
          if escaped.None? {
            return None;
          }
          value := value + [escaped.value];
        } else {
          value := value + [current];
        }
      }
      text := None;
    }

    method ParseReference() returns (field: Option<Reference>)
      requires position <= |expression|
      modifies this
      ensures position <= |expression|
      ensures var r := MessageField(expression, old(position));
        field == (if r.None? then None else Some(r.value.0)) && (r.Some? ==> position == r.value.1)
    {
      var ok := ExpectWord("message");
      if !ok {
        return None;
      }
      Skip();
      var name: Option<string>;
      if position < |expression| && expression[position] == '.' {
        position := position + 1;
        name := ReadWord();
      } else {
        ok := ExpectCharacter('[');
        if !ok {
          return None;
        }
        name := ParseString();
        if name.None? {
          return None;
        }
        ok := ExpectCharacter(']');
        if !ok {
          return None;
        }
      }
      field := if name.None? then None else FieldOf(name.value);
    }

    method ExpectOperator(expected: string) returns (ok: bool)
      requires position <= |expression|
      modifies this
      ensures position <= |expression|
      ensures var r := Operator(expression, old(position), expected); ok == r.Some? && (ok ==> position == r.value)
    {
      Skip();
      if position + |expected| > |expression| || expression[position..position + |expected|] != expected {
        return false;
      }
      position := position + |expected|;
      ok := true;
    }

    method ExpectEnd() returns (ok: bool)
      requires position <= |expression|
      modifies this
      ensures position == SkipSpace(expression, old(position)) && ok == AtEnd(expression, old(position))
    {
      Skip();
      ok := position == |expression|;
    }
  }

  function PrependText(v: string, rest: Option<(string, nat)>): Option<(string, nat)> {
    if rest.None? then None else Some((v + rest.value.0, rest.value.1))
  }

  lemma PrependNothing(rest: Option<(string, nat)>)
    ensures PrependText("", rest) == rest
  {
    if rest.Some? { assert "" + rest.value.0 == rest.value.0; }
  }

  lemma PrependSteps(s: string, p: nat, quote: char, v: string)
    requires p < |s|
    ensures s[p] == quote ==> PrependText(v, StringRest(s, p, quote)) == Some((v, p + 1))
    ensures s[p] != quote && s[p] != '\\' ==>
      PrependText(v, StringRest(s, p, quote)) == PrependText(v + [s[p]], StringRest(s, p + 1, quote))
    ensures s[p] != quote && s[p] == '\\' && p + 1 < |s| && Escape(s[p + 1]).Some? ==>
      PrependText(v, StringRest(s, p, quote)) == PrependText(v + [Escape(s[p + 1]).value], StringRest(s, p + 2, quote))
  {
    if s[p] != quote && s[p] != '\\' {
      var rest := StringRest(s, p + 1, quote);
      if rest.Some? { assert v + ([s[p]] + rest.value.0) == v + [s[p]] + rest.value.0; }
    } else if s[p] != quote && p + 1 < |s| && Escape(s[p + 1]).Some? {
      var rest, e := StringRest(s, p + 2, quote), Escape(s[p + 1]).value;
      if rest.Some? { assert v + ([e] + rest.value.0) == v + [e] + rest.value.0; }
    } else {
      assert v + "" == v;
    }
  }

  // ---------------------------------------------------------------- the tag parsers

  method ExpectWords(parser: ExpressionParser, words: seq<string>) returns (ok: bool)
    requires parser.position <= |parser.expression|
    modifies parser
    ensures parser.position <= |parser.expression|
    ensures var r := Words(parser.expression, old(parser.position), words); ok == r.Some? && (ok ==> parser.position == r.value)
  {
    for i := 0 to |words|
      invariant parser.position <= |parser.expression|
      invariant Words(parser.expression, old(parser.position), words) == Words(parser.expression, parser.position, words[i..])
    {
      assert words[i..][1..] == words[i + 1..];
      ok := parser.ExpectWord(words[i]);
      if !ok {
        return;
      }
    }
    ok := true;
  }

  // parse_for and parse_simple_block
  method ParseWords(text: string, words: seq<string>) returns (ok: bool)
    ensures ok == OnlyWords(text, words)
  {
    var parser := new ExpressionParser(text);
    ok := ExpectWords(parser, words);
    if ok {
      ok := parser.ExpectEnd();
    }
  }

  method ParseRoleCondition(text: string) returns (role: Option<Role>)
    ensures role == RoleCondition(text)
  {
    var parser := new ExpressionParser(text);
    var keyword := parser.ReadWord();
    if keyword != Some("if") && keyword != Some("elif") {
      return None;
    }
    var reference := parser.ParseReference();
    if reference != Some(RoleField) {
      return None;
    }
    var ok := parser.ExpectOperator("==");
    if !ok {
      return None;
    }
    var name := parser.ParseString();
    if name.None? {
      return None;
    }
    ok := parser.ExpectEnd();
    role := if ok then RoleOf(name.value) else None;
  }

  method IsGenerationCondition(text: string) returns (r: Option<bool>)
    ensures r == GenerationCondition(text)
  {
    var parser := new ExpressionParser(text);
    var keyword := parser.ReadWord();
    if keyword.None? {
      return None;
    }
    if keyword.value != "if" {
      return Some(false);
    }
    var first := parser.ReadWord();
    if first.None? {
      return None;
    }
    if first.value != "loop" {
      return Some(false);
    }
    var ok := parser.ExpectCharacter('.');
    if !ok {
      return None;
    }
    ok := ExpectWords(parser, ["last", "and", "add_generation_prompt"]);
    if !ok {
      return None;
    }
    ok := parser.ExpectEnd();
    r := if ok then Some(true) else None;
  }

  method ParseTerm(parser: ExpressionParser) returns (term: Option<Term>)
    requires parser.position <= |parser.expression|
    modifies parser
    ensures parser.position <= |parser.expression|
    ensures var r := OutputTerm(parser.expression, old(parser.position));
      term == (if r.None? then None else Some(r.value.0)) && (r.Some? ==> parser.position == r.value.1)
  {
    parser.Skip();
    if parser.position == |parser.expression| {
      return None;
    }
    var first := parser.expression[parser.position];
    if first == '\'' || first == '"' {
      var text := parser.ParseString();
      term := if text.None? then None else Some(Literal(text.value));
    } else if first == 'm' {
      var field := parser.ParseReference();
      term := if field == Some(ContentField) then Some(Content) else None;
    } else {
      var ok := parser.ExpectWord("eos_token");
      term := if ok then Some(Eos) else None;
    }
  }

  lemma NoTermsYet(rest: Option<seq<Term>>)
    ensures PrependTerms([], rest) == rest
  {
    if rest.Some? { assert [] + rest.value == rest.value; }
  }

  lemma PrependTwice(ts: seq<Term>, us: seq<Term>, rest: Option<seq<Term>>)
    ensures PrependTerms(ts, PrependTerms(us, rest)) == PrependTerms(ts + us, rest)
  {
    if rest.Some? { assert ts + (us + rest.value) == ts + us + rest.value; }
  }

  lemma {:induction false} SkipTwice(s: string, p: nat)
    requires p <= |s|
    ensures SkipSpace(s, SkipSpace(s, p)) == SkipSpace(s, p)
    decreases |s| - p
  {
    if p < |s| && IsSpace(s[p]) { SkipTwice(s, p + 1); }
  }

  method ParseOperand(parser: ExpressionParser) returns (r: Operand)
    requires parser.position <= |parser.expression|
    modifies parser
    ensures parser.position <= |parser.expression| && r == OperandAt(parser.expression, old(parser.position))
    ensures r.NextOperand? ==> parser.position == r.next
  {
    hide OutputTerm;
    var term := ParseTerm(parser);
    if term.None? {
      return BadOperand;
    }
    SkipTwice(parser.expression, parser.position);
    var ended := parser.ExpectEnd();
    if ended {
      return LastOperand(term.value);
    }
    var ok := parser.ExpectCharacter('+');
    r := if ok then NextOperand(term.value, parser.position) else BadOperand;
  }

  method ParseOutput(text: string) returns (terms: Option<seq<Term>>)
    ensures terms == OutputTerms(text, 0)
  {
    var parser := new ExpressionParser(text);
    var read: seq<Term> := [];
    NoTermsYet(OutputTerms(text, 0));
    hide OperandAt;
    while true
      invariant parser.position <= |text|
      invariant OutputTerms(text, 0) == PrependTerms(read, OutputTerms(text, parser.position))
      decreases |text| - parser.position
    {
      var operand := ParseOperand(parser);
      match operand
      case BadOperand =>
        return None;
      case LastOperand(term) =>
        return Some(read + [term]);
      case NextOperand(term, next) =>
        PrependTwice(read, [term], OutputTerms(text, next));
        read := read + [term];
    }
  }
}

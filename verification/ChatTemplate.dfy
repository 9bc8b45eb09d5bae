// The meaning of a chat template: its token stream parsed into statements, and their rendering.

module ChatTemplate {
  import opened SizeT
  import opened ChatLexer
  import opened ChatExpression

  datatype Condition = RoleIs(role: Role) | LastAndPrompt

  datatype Branch = Branch(condition: Condition, body: seq<Stmt>)

  datatype Stmt =
    | Text(text: string)
    | Output(terms: seq<Term>)
    | For(body: seq<Stmt>)
    | If(branches: seq<Branch>)

  // ---------------------------------------------------------------- parsing

  datatype BlockKind = ForOpen | EndFor | IfOpen | Elif | Else | EndIf | Unknown

  // The keyword of a block tag.
  function Classify(t: Token): BlockKind {
    if !t.kind.BlockToken? then Unknown
    else
      var keyword := Word(t.text, 0);
      if keyword.None? then Unknown
      else if keyword.value.0 == "for" then ForOpen
      else if keyword.value.0 == "endfor" then EndFor
      else if keyword.value.0 == "if" then IfOpen
      else if keyword.value.0 == "elif" then Elif
      else if keyword.value.0 == "else" then Else
      else if keyword.value.0 == "endif" then EndIf
      else Unknown
  }

  function ConditionOf(text: string): Option<Condition> {
    var generation := GenerationCondition(text);
    if generation.None? then None
    else if generation.value then Some(LastAndPrompt)
    else
      var role := RoleCondition(text);
      if role.None? then None else Some(RoleIs(role.value))
  }

  // A text or output token by itself.
  function Simple(t: Token): Option<Stmt> {
    match t.kind
    case TextToken => Some(Text(t.text))
    case OutputToken => (var terms := OutputTerms(t.text, 0); if terms.None? then None else Some(Output(terms.value)))
    case BlockToken => None
  }

  predicate Closes(k: BlockKind) {
    k.EndFor? || k.Elif? || k.Else? || k.EndIf?
  }

  function Cons(s: Stmt, rest: Option<(seq<Stmt>, nat)>): Option<(seq<Stmt>, nat)> {
    if rest.None? then None else Some(([s] + rest.value.0, rest.value.1))
  }

  // The statements from token i up to a closing block or the end.
  function ParseFrom(ts: seq<Token>, i: nat): (r: Option<(seq<Stmt>, nat)>)
    requires i <= |ts|
    ensures r.Some? ==> i <= r.value.1 <= |ts| && (r.value.1 < |ts| ==> Closes(Classify(ts[r.value.1])))
    decreases |ts| - i, 0
  {
    if i == |ts| then Some(([], i))
    else if !ts[i].kind.BlockToken? then
      var s := Simple(ts[i]);
      if s.None? then None else Cons(s.value, ParseFrom(ts, i + 1))
    else if Closes(Classify(ts[i])) then Some(([], i))
    else
      var s := ParseBlock(ts, i);
      if s.None? then None else Cons(s.value.0, ParseFrom(ts, s.value.1))
  }

  // The loop or the conditional that opens at token i.
  function ParseBlock(ts: seq<Token>, i: nat): (r: Option<(Stmt, nat)>)
    requires i < |ts|
    ensures r.Some? ==> i < r.value.1 <= |ts|
    decreases |ts| - i - 1, 2
  {
    if Classify(ts[i]).ForOpen? then
      if !OnlyWords(ts[i].text, ["for", "message", "in", "messages"]) then None
      else
        var body := ParseFrom(ts, i + 1);
        if body.None? || !EndsWith(ts, body.value.1, EndFor, "endfor") then None else Some((For(body.value.0), body.value.1 + 1))
    else if Classify(ts[i]).IfOpen? then
      var branches := ParseBranches(ts, i);
      if branches.None? then None else Some((If(branches.value.0), branches.value.1))
    else None
  }

  predicate EndsWith(ts: seq<Token>, i: nat, kind: BlockKind, keyword: string) {
    i < |ts| && Classify(ts[i]) == kind && OnlyWords(ts[i].text, [keyword])
  }

  // The branches from the if or elif at token i to the place after endif.
  function ParseBranches(ts: seq<Token>, i: nat): (r: Option<(seq<Branch>, nat)>)
    requires i < |ts|
    ensures r.Some? ==> i < r.value.1 <= |ts| && r.value.0 != []
    decreases |ts| - i - 1, 1
  {
    var condition := ConditionOf(ts[i].text);
    if condition.None? then None
    else
      var body := ParseFrom(ts, i + 1);
      if body.None? || body.value.1 == |ts| then None
      else
        var branch, j := Branch(condition.value, body.value.0), body.value.1;
        if Classify(ts[j]).Elif? then
          var rest := ParseBranches(ts, j);
          if rest.None? then None else Some(([branch] + rest.value.0, rest.value.1))
        else if EndsWith(ts, j, EndIf, "endif") then Some(([branch], j + 1))
        else None
  }

  function Parse(ts: seq<Token>): Option<seq<Stmt>> {
    var r := ParseFrom(ts, 0);
    if r.None? || r.value.1 != |ts| then None else Some(r.value.0)
  }

  // ---------------------------------------------------------------- rendering

  datatype Message = Message(role: string, content: string)

  // The variables of a template; inside the loop, the message and whether it is the last one.
  datatype Env = Env(messages: seq<Message>, prompt: bool, eos: string, message: Option<Message>, last: bool)

  // Outside the loop the generation condition is read as the prompt flag alone.
  predicate Holds(c: Condition, env: Env) {
    match c
    case RoleIs(role) => env.message.Some? && RoleOf(env.message.value.role) == Some(role)
    case LastAndPrompt => env.prompt && (env.message.None? || env.last)
  }

  function RenderTerm(t: Term, env: Env): string {
    match t
    case Literal(text) => text
    case Content => if env.message.Some? then env.message.value.content else ""
    case Eos => env.eos
  }

  function RenderTerms(ts: seq<Term>, env: Env): string {
    if ts == [] then "" else RenderTerm(ts[0], env) + RenderTerms(ts[1..], env)
  }

  function Render(ss: seq<Stmt>, env: Env): string
    decreases ss, 0
  {
    if ss == [] then "" else RenderStmt(ss[0], env) + Render(ss[1..], env)
  }

  function RenderStmt(s: Stmt, env: Env): string
    decreases s, 0
  {
    match s
    case Text(text) => text
    case Output(terms) => RenderTerms(terms, env)
    case For(body) => RenderLoop(body, env, 0)
    case If(branches) => RenderBranches(branches, env)
  }

  function InLoop(env: Env, k: nat): Env
    requires k < |env.messages|
  {
    env.(message := Some(env.messages[k]), last := k + 1 == |env.messages|)
  }

  function RenderLoop(body: seq<Stmt>, env: Env, k: nat): string
    requires k <= |env.messages|
    decreases body, |env.messages| - k + 1
  {
    if k == |env.messages| then "" else Render(body, InLoop(env, k)) + RenderLoop(body, env, k + 1)
  }

  // The first branch whose condition holds.
  function RenderBranches(branches: seq<Branch>, env: Env): string
    decreases branches, 0
  {
    if branches == [] then ""
    else if Holds(branches[0].condition, env) then Render(branches[0].body, env)
    else RenderBranches(branches[1..], env)
  }

  lemma {:induction false} RenderConcat(a: seq<Stmt>, b: seq<Stmt>, env: Env)
    ensures Render(a + b, env) == Render(a, env) + Render(b, env)
  {
    if a == [] {
      assert a + b == b;
    } else {
      assert (a + b)[1..] == a[1..] + b;
      RenderConcat(a[1..], b, env);
      assert RenderStmt(a[0], env) + (Render(a[1..], env) + Render(b, env)) == RenderStmt(a[0], env) + Render(a[1..], env) + Render(b, env);
    }
  }

  lemma {:induction false} RenderTermsConcat(a: seq<Term>, b: seq<Term>, env: Env)
    ensures RenderTerms(a + b, env) == RenderTerms(a, env) + RenderTerms(b, env)
  {
    if a == [] {
      assert a + b == b;
    } else {
      assert (a + b)[1..] == a[1..] + b;
      RenderTermsConcat(a[1..], b, env);
    }
  }
}

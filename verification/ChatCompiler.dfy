// The supported templates and what they compile to: role affixes and a handful of strings. The
// compiled form is proved to format every message list as the template renders it.

module ChatCompiler {
  import opened SizeT
  import opened ChatExpression
  import opened ChatTemplate

  datatype Affix = Affix(before: string, after: string)

  datatype Compiled = Compiled(
    affixes: map<Role, Affix>, generation: string, tail: string, tailAfterGeneration: string,
    generationInsideLoop: bool, prefix: string, postLoop: string, suffix: string)

  // ---------------------------------------------------------------- pieces of a supported template

  predicate Whitespace(s: string) {
    forall i :: 0 <= i < |s| ==> IsSpace(s[i])
  }

  // The text of whitespace statements; None when one is anything else.
  function Join(ss: seq<Stmt>): Option<string> {
    if ss == [] then Some("")
    else if !ss[0].Text? || !Whitespace(ss[0].text) then None
    else
      var rest := Join(ss[1..]);
      if rest.None? then None else Some(ss[0].text + rest.value)
  }

  // Number of leading text statements.
  function Lead(ss: seq<Stmt>): (n: nat)
    ensures n <= |ss| && (n < |ss| ==> !ss[n].Text?)
    ensures forall i :: 0 <= i < n ==> ss[i].Text?
  {
    if ss == [] || !ss[0].Text? then 0 else 1 + Lead(ss[1..])
  }

  // A role branch as it is read: what comes before and after the content, and what was seen.
  datatype BranchState = BranchState(before: string, after: string, output: bool, content: bool, eos: bool)

  function AddTerm(st: BranchState, t: Term, eos: string): Option<BranchState> {
    match t
    case Literal(text) => Some(if st.content then st.(after := st.after + text) else st.(before := st.before + text))
    case Content => if st.content || st.eos then None else Some(st.(content := true))
    case Eos => if !st.content || st.eos then None else Some(st.(eos := true, after := st.after + eos))
  }

  function AddTerms(st: BranchState, ts: seq<Term>, eos: string): Option<BranchState>
    decreases |ts|
  {
    if ts == [] then Some(st)
    else
      var st1 := AddTerm(st, ts[0], eos);
      if st1.None? then None else AddTerms(st1.value, ts[1..], eos)
  }

  function AddStmt(st: BranchState, s: Stmt, eos: string): Option<BranchState> {
    match s
    case Text(text) =>
      if !Whitespace(text) then None
      else Some(if st.output then st.(after := st.after + text) else st.(before := st.before + text))
    case Output(terms) => if st.output then None else AddTerms(st.(output := true), terms, eos)
    case _ => None
  }

  function AddStmts(st: BranchState, ss: seq<Stmt>, eos: string): Option<BranchState>
    decreases |ss|
  {
    if ss == [] then Some(st)
    else
      var st1 := AddStmt(st, ss[0], eos);
      if st1.None? then None else AddStmts(st1.value, ss[1..], eos)
  }

  const EMPTY_BRANCH := BranchState("", "", false, false, false)

  // One output, with the content once and eos once after it.
  function RoleAffix(ss: seq<Stmt>, eos: string): Option<Affix> {
    var st := AddStmts(EMPTY_BRANCH, ss, eos);
    if st.None? || !st.value.output || !st.value.content || !st.value.eos then None
    else Some(Affix(st.value.before, st.value.after))
  }

  function Literals(ts: seq<Term>): Option<string> {
    if ts == [] then Some("")
    else if !ts[0].Literal? then None
    else
      var rest := Literals(ts[1..]);
      if rest.None? then None else Some(ts[0].text + rest.value)
  }

  // The text of a generation branch: whitespace around exactly one output of literals.
  function GenerationFrom(ss: seq<Stmt>, seen: bool): Option<string> {
    if ss == [] then (if seen then Some("") else None)
    else
      var first := match ss[0]
        case Text(text) => if Whitespace(text) then Some(text) else None
        case Output(terms) => if seen then None else Literals(terms)
        case _ => None;
      var rest := GenerationFrom(ss[1..], seen || ss[0].Output?);
      if first.None? || rest.None? then None else Some(first.value + rest.value)
  }

  predicate AllRoles(seen: map<Role, Affix>) {
    System in seen && User in seen && Assistant in seen
  }

  // The role switch: every role in exactly one branch.
  function CompileSwitch(branches: seq<Branch>, seen: map<Role, Affix>, eos: string): Option<map<Role, Affix>> {
    if branches == [] then (if AllRoles(seen) then Some(seen) else None)
    else if !branches[0].condition.RoleIs? || branches[0].condition.role in seen then None
    else
      var affix := RoleAffix(branches[0].body, eos);
      if affix.None? then None else CompileSwitch(branches[1..], seen[branches[0].condition.role := affix.value], eos)
  }

  function GenerationBlock(s: Stmt): Option<string> {
    if s.If? && |s.branches| == 1 && s.branches[0].condition.LastAndPrompt? then GenerationFrom(s.branches[0].body, false) else None
  }

  // Whitespace, or whitespace around one generation block.
  datatype Ending = Ending(before: string, generation: Option<string>, after: string)

  function CompileEnding(ss: seq<Stmt>): Option<Ending> {
    var m := Lead(ss);
    var before := Join(ss[..m]);
    if before.None? then None
    else if m == |ss| then Some(Ending(before.value, None, ""))
    else
      var generation := GenerationBlock(ss[m]);
      var after := Join(ss[m + 1..]);
      if generation.None? || after.None? then None else Some(Ending(before.value, generation, after.value))
  }

  // The loop body: whitespace, the role switch, and an ending.
  datatype LoopParts = LoopParts(prefix: string, affixes: map<Role, Affix>, ending: Ending)

  function CompileBody(ss: seq<Stmt>, eos: string): Option<LoopParts> {
    var k := Lead(ss);
    if k == |ss| || !ss[k].If? then None
    else
      var prefix := Join(ss[..k]);
      var affixes := CompileSwitch(ss[k].branches, map[], eos);
      var ending := CompileEnding(ss[k + 1..]);
      if prefix.None? || affixes.None? || ending.None? then None
      else Some(LoopParts(prefix.value, affixes.value, ending.value))
  }

  function WithPrefix(prefix: string, affixes: map<Role, Affix>): map<Role, Affix> {
    map r | r in affixes :: affixes[r].(before := prefix + affixes[r].before)
  }

  // A generation prompt may stand in the loop or after it, not in both places.
  function Assemble(prefix: string, parts: LoopParts, after: Ending): Option<Compiled> {
    var affixes := WithPrefix(parts.prefix, parts.affixes);
    if parts.ending.generation.Some? then
      if after.generation.Some? then None
      else Some(Compiled(affixes, parts.ending.generation.value, parts.ending.before, parts.ending.after, true, prefix, "", after.before))
    else if after.generation.Some? then
      Some(Compiled(affixes, after.generation.value, parts.ending.before, "", false, prefix, after.before, after.after))
    else Some(Compiled(affixes, "", parts.ending.before, "", false, prefix, "", after.before))
  }

  // The whole template: whitespace, the message loop, and an ending.
  function CompileStmts(ss: seq<Stmt>, eos: string): Option<Compiled> {
    var k := Lead(ss);
    if k == |ss| || !ss[k].For? then None
    else
      var prefix := Join(ss[..k]);
      var parts := CompileBody(ss[k].body, eos);
      var after := CompileEnding(ss[k + 1..]);
      if prefix.None? || parts.None? || after.None? then None else Assemble(prefix.value, parts.value, after.value)
  }

  // ---------------------------------------------------------------- formatting

  ghost predicate RolesValid(messages: seq<Message>) {
    forall k :: 0 <= k < |messages| ==> RoleOf(messages[k].role).Some?
  }

  function FormatMessage(c: Compiled, m: Message, generate: bool): string
    requires AllRoles(c.affixes) && RoleOf(m.role).Some?
  {
    var affix := c.affixes[RoleOf(m.role).value];
    affix.before + m.content + affix.after + c.tail + (if c.generationInsideLoop && generate then c.generation else "") + c.tailAfterGeneration
  }

  function FormatFrom(c: Compiled, messages: seq<Message>, prompt: bool, k: nat): string
    requires AllRoles(c.affixes) && k <= |messages| && RolesValid(messages)
    decreases |messages| - k
  {
    if k == |messages| then ""
    else FormatMessage(c, messages[k], prompt && k + 1 == |messages|) + FormatFrom(c, messages, prompt, k + 1)
  }

  function FormatEnd(c: Compiled, prompt: bool): string {
    c.postLoop + (if prompt && !c.generationInsideLoop then c.generation else "") + c.suffix
  }

  function FormatAll(c: Compiled, messages: seq<Message>, prompt: bool): string
    requires AllRoles(c.affixes) && RolesValid(messages)
  {
    c.prefix + FormatFrom(c, messages, prompt, 0) + FormatEnd(c, prompt)
  }

  // ---------------------------------------------------------------- compiled and rendered forms agree

  lemma {:induction false} JoinRenders(ss: seq<Stmt>, env: Env)
    requires Join(ss).Some?
    ensures Render(ss, env) == Join(ss).value
  {
    if ss != [] { JoinRenders(ss[1..], env); }
  }

  // What a branch state says about the text read so far.
  function StateText(st: BranchState, content: string): string {
    st.before + (if st.content then content else "") + st.after
  }

  ghost predicate StateOk(st: BranchState) {
    !st.content ==> st.after == ""
  }

  lemma TermRenders(st: BranchState, t: Term, env: Env)
    requires env.message.Some? && AddTerm(st, t, env.eos).Some? && StateOk(st)
    ensures StateOk(AddTerm(st, t, env.eos).value)
    ensures StateText(AddTerm(st, t, env.eos).value, env.message.value.content)
         == StateText(st, env.message.value.content) + RenderTerm(t, env)
  {
  }

  lemma {:induction false} TermsRender(st: BranchState, ts: seq<Term>, env: Env)
    requires env.message.Some? && AddTerms(st, ts, env.eos).Some? && StateOk(st)
    ensures StateOk(AddTerms(st, ts, env.eos).value)
    ensures StateText(AddTerms(st, ts, env.eos).value, env.message.value.content)
         == StateText(st, env.message.value.content) + RenderTerms(ts, env)
    ensures AddTerms(st, ts, env.eos).value.output == st.output
    decreases |ts|
  {
    if ts == [] {
      assert RenderTerms(ts, env) == "";
    } else {
      TermRenders(st, ts[0], env);
      var st1 := AddTerm(st, ts[0], env.eos).value;
      hide AddTerm, StateOk, StateText;
      TermsRender(st1, ts[1..], env);
      assert st1.output == st.output by { TermKeepsOutput(st, ts[0], env.eos); }
    }
  }

  lemma TermKeepsOutput(st: BranchState, t: Term, eos: string)
    requires AddTerm(st, t, eos).Some?
    ensures AddTerm(st, t, eos).value.output == st.output
  {
  }

  // Before the output nothing stands after the content.
  ghost predicate BetweenOk(st: BranchState) {
    !st.output ==> !st.content && st.after == ""
  }

  lemma StmtRenders(st: BranchState, s: Stmt, env: Env)
    requires env.message.Some? && AddStmt(st, s, env.eos).Some? && BetweenOk(st)
    ensures BetweenOk(AddStmt(st, s, env.eos).value)
    ensures StateText(AddStmt(st, s, env.eos).value, env.message.value.content)
         == StateText(st, env.message.value.content) + RenderStmt(s, env)
  {
    if s.Output? { TermsRender(st.(output := true), s.terms, env); }
  }

  lemma {:induction false} StmtsRender(st: BranchState, ss: seq<Stmt>, env: Env)
    requires env.message.Some? && AddStmts(st, ss, env.eos).Some? && BetweenOk(st)
    ensures StateText(AddStmts(st, ss, env.eos).value, env.message.value.content)
         == StateText(st, env.message.value.content) + Render(ss, env)
    decreases |ss|
  {
    if ss == [] {
      assert Render(ss, env) == "";
    } else {
      StmtRenders(st, ss[0], env);
      hide AddStmt, BetweenOk, StateText, RenderStmt;
      StmtsRender(AddStmt(st, ss[0], env.eos).value, ss[1..], env);
      assert Render(ss, env) == RenderStmt(ss[0], env) + Render(ss[1..], env);
    }
  }

  // A role branch renders its affixes around the content.
  lemma RoleAffixRenders(ss: seq<Stmt>, env: Env)
    requires env.message.Some? && RoleAffix(ss, env.eos).Some?
    ensures Render(ss, env)
         == RoleAffix(ss, env.eos).value.before + env.message.value.content + RoleAffix(ss, env.eos).value.after
  {
    StmtsRender(EMPTY_BRANCH, ss, env);
    assert "" + "" + Render(ss, env) == Render(ss, env);
  }

  lemma {:induction false} LiteralsRender(ts: seq<Term>, env: Env)
    requires Literals(ts).Some?
    ensures RenderTerms(ts, env) == Literals(ts).value
  {
    if ts != [] { LiteralsRender(ts[1..], env); }
  }

  lemma {:induction false} GenerationRenders(ss: seq<Stmt>, seen: bool, env: Env)
    requires GenerationFrom(ss, seen).Some?
    ensures Render(ss, env) == GenerationFrom(ss, seen).value
    decreases |ss|
  {
    if ss != [] {
      GenerationRenders(ss[1..], seen || ss[0].Output?, env);
      if ss[0].Output? { LiteralsRender(ss[0].terms, env); }
    }
  }

  lemma GenerationBlockRenders(s: Stmt, env: Env)
    requires GenerationBlock(s).Some?
    ensures RenderStmt(s, env) == if Holds(LastAndPrompt, env) then GenerationBlock(s).value else ""
  {
    GenerationRenders(s.branches[0].body, false, env);
    assert RenderBranches(s.branches[1..], env) == "";
  }

  lemma SplitRenders(ss: seq<Stmt>, m: nat, env: Env)
    requires m < |ss|
    ensures Render(ss, env) == Render(ss[..m], env) + RenderStmt(ss[m], env) + Render(ss[m + 1..], env)
  {
    assert ss == ss[..m] + ss[m..] && ss[m..][1..] == ss[m + 1..];
    RenderConcat(ss[..m], ss[m..], env);
    assert Render(ss[m..], env) == RenderStmt(ss[m], env) + Render(ss[m + 1..], env);
    hide Render;
    assert Render(ss[..m], env) + (RenderStmt(ss[m], env) + Render(ss[m + 1..], env))
        == Render(ss[..m], env) + RenderStmt(ss[m], env) + Render(ss[m + 1..], env);
  }

  function EndingText(e: Ending, generate: bool): string {
    e.before + (if generate && e.generation.Some? then e.generation.value else "") + e.after
  }

  lemma EndingRenders(ss: seq<Stmt>, env: Env)
    requires CompileEnding(ss).Some?
    ensures Render(ss, env) == EndingText(CompileEnding(ss).value, Holds(LastAndPrompt, env))
  {
    var m := Lead(ss);
    hide Render, RenderStmt, Join, GenerationBlock;
    JoinRenders(ss[..m], env);
    if m == |ss| {
      assert ss[..m] == ss;
      assert Render(ss, env) + "" + "" == Render(ss, env);
    } else {
      SplitRenders(ss, m, env);
      GenerationBlockRenders(ss[m], env);
      JoinRenders(ss[m + 1..], env);
    }
  }

  // The switch keeps what it has seen and renders the affixes of the message's role.
  lemma {:induction false} SwitchKeeps(branches: seq<Branch>, seen: map<Role, Affix>, eos: string, role: Role)
    requires CompileSwitch(branches, seen, eos).Some? && role in seen
    ensures role in CompileSwitch(branches, seen, eos).value && CompileSwitch(branches, seen, eos).value[role] == seen[role]
  {
    if branches != [] {
      SwitchKeeps(branches[1..], seen[branches[0].condition.role := RoleAffix(branches[0].body, eos).value], eos, role);
    }
  }

  lemma {:induction false} SwitchRenders(branches: seq<Branch>, seen: map<Role, Affix>, env: Env, role: Role)
    requires CompileSwitch(branches, seen, env.eos).Some? && role !in seen
    requires env.message.Some? && RoleOf(env.message.value.role) == Some(role)
    ensures var affixes := CompileSwitch(branches, seen, env.eos).value;
      role in affixes
      && RenderBranches(branches, env) == affixes[role].before + env.message.value.content + affixes[role].after
    decreases branches
  {
    var r := branches[0].condition.role;
    var seen1 := seen[r := RoleAffix(branches[0].body, env.eos).value];
    if r == role {
      RoleAffixRenders(branches[0].body, env);
      SwitchKeeps(branches[1..], seen1, env.eos, role);
    } else {
      SwitchRenders(branches[1..], seen1, env, role);
    }
  }

  function MessageText(parts: LoopParts, m: Message, generate: bool): string
    requires RoleOf(m.role).Some? && RoleOf(m.role).value in parts.affixes
  {
    var affix := parts.affixes[RoleOf(m.role).value];
    parts.prefix + (affix.before + m.content + affix.after) + EndingText(parts.ending, generate)
  }

  lemma BodyRenders(ss: seq<Stmt>, env: Env)
    requires CompileBody(ss, env.eos).Some? && env.message.Some? && RoleOf(env.message.value.role).Some?
    ensures RoleOf(env.message.value.role).value in CompileBody(ss, env.eos).value.affixes
    ensures Render(ss, env) == MessageText(CompileBody(ss, env.eos).value, env.message.value, env.prompt && env.last)
  {
    var k := Lead(ss);
    hide Render, Join, CompileEnding;
    SplitRenders(ss, k, env);
    JoinRenders(ss[..k], env);
    SwitchRenders(ss[k].branches, map[], env, RoleOf(env.message.value.role).value) by { hide RenderBranches; }
    EndingRenders(ss[k + 1..], env);
  }

  ghost predicate EndingOk(e: Ending) {
    e.generation.None? ==> e.after == ""
  }

  lemma AssembledMessage(prefix: string, parts: LoopParts, after: Ending, m: Message, generate: bool)
    requires Assemble(prefix, parts, after).Some? && AllRoles(parts.affixes) && RoleOf(m.role).Some? && EndingOk(parts.ending)
    ensures AllRoles(Assemble(prefix, parts, after).value.affixes)
    ensures FormatMessage(Assemble(prefix, parts, after).value, m, generate) == MessageText(parts, m, generate)
  {
    var c := Assemble(prefix, parts, after).value;
    var role := RoleOf(m.role).value;
    var affix, e := parts.affixes[role], parts.ending;
    assert c.affixes[role] == affix.(before := parts.prefix + affix.before);
    var g := if generate && e.generation.Some? then e.generation.value else "";
    Regroup(parts.prefix, affix.before, m.content, affix.after, e.before, g, e.after);
  }

  lemma Regroup(a: string, b: string, c: string, d: string, e: string, f: string, g: string)
    ensures (a + b) + c + d + e + f + g == a + (b + c + d) + (e + f + g)
  {
    assert (a + b) + c + d == a + (b + c + d);
    assert (a + (b + c + d)) + e + f + g == (a + (b + c + d)) + (e + f + g);
  }

  // The parts of a compiled template have every role and well-shaped endings.
  lemma PartsOk(ss: seq<Stmt>, eos: string)
    requires CompileBody(ss, eos).Some?
    ensures AllRoles(CompileBody(ss, eos).value.affixes) && EndingOk(CompileBody(ss, eos).value.ending)
  {
    SwitchComplete(ss[Lead(ss)].branches, map[], eos);
  }

  lemma {:induction false} SwitchComplete(branches: seq<Branch>, seen: map<Role, Affix>, eos: string)
    requires CompileSwitch(branches, seen, eos).Some?
    ensures AllRoles(CompileSwitch(branches, seen, eos).value)
    decreases |branches|
  {
    if branches != [] {
      SwitchComplete(branches[1..], seen[branches[0].condition.role := RoleAffix(branches[0].body, eos).value], eos);
    }
  }

  lemma MessageRenders(body: seq<Stmt>, prefix: string, after: Ending, env: Env, k: nat)
    requires CompileBody(body, env.eos).Some? && Assemble(prefix, CompileBody(body, env.eos).value, after).Some?
    requires k < |env.messages| && RoleOf(env.messages[k].role).Some?
    ensures AllRoles(Assemble(prefix, CompileBody(body, env.eos).value, after).value.affixes)
    ensures Render(body, InLoop(env, k))
         == FormatMessage(Assemble(prefix, CompileBody(body, env.eos).value, after).value, env.messages[k],
                          env.prompt && k + 1 == |env.messages|)
  {
    hide CompileBody, Assemble, FormatMessage, MessageText, EndingOk, Render, RoleOf;
    PartsOk(body, env.eos);
    BodyRenders(body, InLoop(env, k));
    AssembledMessage(prefix, CompileBody(body, env.eos).value, after, env.messages[k], env.prompt && k + 1 == |env.messages|);
  }

  // The loop renders the formatted messages one after another.
  lemma {:induction false} LoopRenders(body: seq<Stmt>, prefix: string, after: Ending, env: Env, k: nat)
    requires CompileBody(body, env.eos).Some? && Assemble(prefix, CompileBody(body, env.eos).value, after).Some?
    requires AllRoles(Assemble(prefix, CompileBody(body, env.eos).value, after).value.affixes)
    requires k <= |env.messages| && RolesValid(env.messages)
    ensures RenderLoop(body, env, k)
         == FormatFrom(Assemble(prefix, CompileBody(body, env.eos).value, after).value, env.messages, env.prompt, k)
    decreases |env.messages| - k
  {
    hide CompileBody, Assemble, FormatMessage, Render, RoleOf, AllRoles, InLoop;
    if k < |env.messages| {
      MessageRenders(body, prefix, after, env, k);
      LoopRenders(body, prefix, after, env, k + 1);
    }
  }

  lemma AssembledRoles(body: seq<Stmt>, eos: string, prefix: string, after: Ending)
    requires CompileBody(body, eos).Some? && Assemble(prefix, CompileBody(body, eos).value, after).Some?
    ensures AllRoles(Assemble(prefix, CompileBody(body, eos).value, after).value.affixes)
  {
    PartsOk(body, eos);
    AssembledMessage(prefix, CompileBody(body, eos).value, after, Message("system", ""), false);
  }

  lemma AssembledEnd(prefix: string, parts: LoopParts, after: Ending, prompt: bool)
    requires Assemble(prefix, parts, after).Some? && EndingOk(after)
    ensures FormatEnd(Assemble(prefix, parts, after).value, prompt) == EndingText(after, prompt)
    ensures Assemble(prefix, parts, after).value.prefix == prefix
  {
    assert after.before + "" + "" == "" + "" + after.before;
    assert after.before + "" == after.before;
  }

  lemma EndingShape(ss: seq<Stmt>)
    requires CompileEnding(ss).Some?
    ensures EndingOk(CompileEnding(ss).value)
  {
  }

  // Main theorem: for every supported template, message list and prompt flag, the compiled affixes
  // format exactly what the template renders.
  lemma CompiledRenders(ss: seq<Stmt>, messages: seq<Message>, prompt: bool, eos: string)
    requires CompileStmts(ss, eos).Some? && RolesValid(messages)
    ensures AllRoles(CompileStmts(ss, eos).value.affixes)
    ensures Render(ss, Env(messages, prompt, eos, None, false)) == FormatAll(CompileStmts(ss, eos).value, messages, prompt)
  {
    var env := Env(messages, prompt, eos, None, false);
    var k := Lead(ss);
    var prefix, parts, after := Join(ss[..k]).value, CompileBody(ss[k].body, eos).value, CompileEnding(ss[k + 1..]).value;
    assert RenderStmt(ss[k], env) == RenderLoop(ss[k].body, env, 0);
    assert Holds(LastAndPrompt, env) <==> prompt;
    hide Render, RenderStmt, RenderLoop, Join, CompileBody, CompileEnding, Assemble, FormatFrom, FormatEnd, EndingOk, RolesValid, AllRoles, Holds;
    SplitRenders(ss, k, env);
    JoinRenders(ss[..k], env);
    AssembledRoles(ss[k].body, eos, prefix, after);
    LoopRenders(ss[k].body, prefix, after, env, 0);
    EndingRenders(ss[k + 1..], env);
    EndingShape(ss[k + 1..]);
    AssembledEnd(prefix, parts, after, prompt);
  }
}

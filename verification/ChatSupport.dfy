// Which templates the compiler supports, said of their statements without compiling them.

module ChatSupport {
  import opened SizeT
  import opened ChatExpression
  import opened ChatTemplate
  import opened ChatCompiler

  // ---------------------------------------------------------------- supported templates

  predicate BlankText(s: Stmt) {
    s.Text? && Whitespace(s.text)
  }

  ghost predicate AllBlank(ss: seq<Stmt>) {
    forall i :: 0 <= i < |ss| ==> BlankText(ss[i])
  }

  // Statement i stands alone: everything around it is whitespace.
  ghost predicate Alone(ss: seq<Stmt>, i: nat)
    requires i < |ss|
  {
    forall j :: 0 <= j < |ss| && j != i ==> BlankText(ss[j])
  }

  ghost predicate AllLiterals(ts: seq<Term>) {
    forall k :: 0 <= k < |ts| ==> ts[k].Literal?
  }

  // Literals, with the end-of-sequence token exactly once among them.
  ghost predicate EosOnce(ts: seq<Term>) {
    exists q: nat :: q < |ts| && ts[q].Eos? && forall k :: 0 <= k < |ts| && k != q ==> ts[k].Literal?
  }

  // Literals, with the content once and the end-of-sequence token once behind it.
  ghost predicate ContentThenEos(ts: seq<Term>) {
    exists p: nat :: p < |ts| && ts[p].Content? && AllLiterals(ts[..p]) && EosOnce(ts[p + 1..])
  }

  // A role branch: whitespace around a single output.
  ghost predicate SupportedRole(ss: seq<Stmt>) {
    exists i: nat :: i < |ss| && Alone(ss, i) && ss[i].Output? && ContentThenEos(ss[i].terms)
  }

  // A generation branch: whitespace around a single output of literals.
  ghost predicate SupportedGeneration(ss: seq<Stmt>) {
    exists i: nat :: i < |ss| && Alone(ss, i) && ss[i].Output? && AllLiterals(ss[i].terms)
  }

  ghost predicate GenerationIf(s: Stmt) {
    s.If? && |s.branches| == 1 && s.branches[0].condition == LastAndPrompt && SupportedGeneration(s.branches[0].body)
  }

  // Whitespace around at most one generation block.
  ghost predicate SupportedEnding(ss: seq<Stmt>) {
    AllBlank(ss) || exists i: nat :: i < |ss| && Alone(ss, i) && GenerationIf(ss[i])
  }

  ghost predicate HasRole(bs: seq<Branch>, r: Role) {
    exists i :: 0 <= i < |bs| && bs[i].condition == RoleIs(r)
  }

  // Every role has exactly one branch.
  ghost predicate SupportedSwitch(bs: seq<Branch>) {
    && (forall i :: 0 <= i < |bs| ==> bs[i].condition.RoleIs? && SupportedRole(bs[i].body))
    && (forall i, j :: 0 <= i < j < |bs| ==> bs[i].condition != bs[j].condition)
    && forall r: Role :: HasRole(bs, r)
  }

  // Statement k has only whitespace in front of it, and an ending behind it.
  ghost predicate Around(ss: seq<Stmt>, k: nat)
    requires k < |ss|
  {
    AllBlank(ss[..k]) && SupportedEnding(ss[k + 1..])
  }

  ghost predicate SupportedBody(ss: seq<Stmt>) {
    exists k: nat :: k < |ss| && Around(ss, k) && ss[k].If? && SupportedSwitch(ss[k].branches)
  }

  ghost predicate HasIf(ss: seq<Stmt>) {
    exists i: nat :: i < |ss| && ss[i].If?
  }

  // Behind its role switch the loop body has a second conditional, which asks for the generation prompt.
  ghost predicate Generates(body: seq<Stmt>) {
    exists i: nat :: i < |body| && body[i].If? && HasIf(body[i + 1..])
  }

  ghost predicate Supported(ss: seq<Stmt>) {
    exists k: nat :: k < |ss| && Around(ss, k) && ss[k].For? && SupportedBody(ss[k].body) && !(Generates(ss[k].body) && HasIf(ss[k + 1..]))
  }

  // ---------------------------------------------------------------- whitespace and single statements

  lemma {:induction false} JoinAccepts(ss: seq<Stmt>)
    ensures Join(ss).Some? <==> AllBlank(ss)
  {
    hide Whitespace;
    if ss != [] { JoinAccepts(ss[1..]); }
  }

  lemma {:induction false} LiteralsAccepts(ts: seq<Term>)
    ensures Literals(ts).Some? <==> AllLiterals(ts)
  {
    if ts != [] { LiteralsAccepts(ts[1..]); }
  }

  // A blank first statement moves the single one by one place.
  lemma AloneMoves(ss: seq<Stmt>, i: nat)
    requires ss != [] && BlankText(ss[0]) && i + 1 < |ss|
    ensures Alone(ss[1..], i) <==> Alone(ss, i + 1)
  {
    hide BlankText;
    if Alone(ss[1..], i) {
      forall j | 0 <= j < |ss| && j != i + 1 ensures BlankText(ss[j]) {
        if j > 0 { assert ss[1..][j - 1] == ss[j]; }
      }
    }
    if Alone(ss, i + 1) {
      forall j | 0 <= j < |ss[1..]| && j != i ensures BlankText(ss[1..][j]) { assert ss[1..][j] == ss[j + 1]; }
    }
  }

  lemma MovesBack(ss: seq<Stmt>, i: nat)
    requires ss != [] && BlankText(ss[0]) && i < |ss| && Alone(ss, i) && !ss[i].Text?
    ensures i > 0 && Alone(ss[1..], i - 1)
  {
    hide Alone;
    AloneMoves(ss, i - 1);
  }

  // Only a statement that is not blank itself can stand alone in front.
  lemma AloneFirst(ss: seq<Stmt>, i: nat)
    requires ss != [] && !BlankText(ss[0]) && i < |ss|
    ensures Alone(ss, i) <==> i == 0 && AllBlank(ss[1..])
  {
    hide BlankText;
    if i == 0 && AllBlank(ss[1..]) {
      forall j | 0 <= j < |ss| && j != i ensures BlankText(ss[j]) { assert ss[1..][j - 1] == ss[j]; }
    }
  }

  // ---------------------------------------------------------------- generation branches

  lemma {:induction false} SeenAccepts(ss: seq<Stmt>)
    ensures GenerationFrom(ss, true).Some? <==> AllBlank(ss)
  {
    hide Whitespace;
    if ss != [] { SeenAccepts(ss[1..]); }
  }

  lemma GenerationMoves(ss: seq<Stmt>)
    requires ss != [] && BlankText(ss[0])
    ensures SupportedGeneration(ss[1..]) <==> SupportedGeneration(ss)
  {
    hide Alone, AllLiterals;
    if SupportedGeneration(ss) {
      var i: nat :| i < |ss| && Alone(ss, i) && ss[i].Output? && AllLiterals(ss[i].terms);
      MovesBack(ss, i);
      assert ss[1..][i - 1] == ss[i];
    }
    if SupportedGeneration(ss[1..]) {
      var i: nat :| i < |ss[1..]| && Alone(ss[1..], i) && ss[1..][i].Output? && AllLiterals(ss[1..][i].terms);
      AloneMoves(ss, i);
      assert ss[1..][i] == ss[i + 1];
    }
  }

  lemma GenerationFirst(ss: seq<Stmt>)
    requires ss != [] && !BlankText(ss[0])
    ensures SupportedGeneration(ss) <==> ss[0].Output? && AllLiterals(ss[0].terms) && AllBlank(ss[1..])
  {
    hide Alone, AllLiterals, AllBlank;
    forall i: nat | i < |ss| ensures Alone(ss, i) <==> i == 0 && AllBlank(ss[1..]) { AloneFirst(ss, i); }
  }

  lemma {:induction false} GenerationAccepts(ss: seq<Stmt>)
    ensures GenerationFrom(ss, false).Some? <==> SupportedGeneration(ss)
    decreases |ss|
  {
    hide SupportedGeneration, AllBlank, Whitespace, AllLiterals, Literals;
    if ss == [] {
      NoGeneration();
    } else if BlankText(ss[0]) {
      GenerationAccepts(ss[1..]);
      GenerationMoves(ss);
    } else {
      GenerationFirst(ss);
      SeenAccepts(ss[1..]);
      if ss[0].Output? { LiteralsAccepts(ss[0].terms); }
    }
  }

  lemma NoGeneration()
    ensures !SupportedGeneration([]) && !SupportedRole([])
  {
  }

  // ---------------------------------------------------------------- role branches

  lemma {:induction false} AfterBoth(st: BranchState, ts: seq<Term>, eos: string)
    requires st.content && st.eos
    ensures AddTerms(st, ts, eos).Some? <==> AllLiterals(ts)
    ensures AddTerms(st, ts, eos).Some? ==> AddTerms(st, ts, eos).value.content && AddTerms(st, ts, eos).value.eos
    decreases |ts|
  {
    if ts != [] {
      var st1 := AddTerm(st, ts[0], eos);
      if st1.Some? { AfterBoth(st1.value, ts[1..], eos); }
    }
  }

  lemma EosFirst(ts: seq<Term>)
    requires ts != []
    ensures EosOnce(ts) <==> (ts[0].Eos? && AllLiterals(ts[1..])) || (ts[0].Literal? && EosOnce(ts[1..]))
  {
    if EosOnce(ts) {
      var q: nat :| q < |ts| && ts[q].Eos? && forall k :: 0 <= k < |ts| && k != q ==> ts[k].Literal?;
      if q > 0 { assert ts[1..][q - 1].Eos?; }
    }
    if ts[0].Eos? && AllLiterals(ts[1..]) {
      forall k | 0 <= k < |ts| && k != 0 ensures ts[k].Literal? { assert ts[1..][k - 1] == ts[k]; }
    }
    if ts[0].Literal? && EosOnce(ts[1..]) {
      var q: nat :| q < |ts[1..]| && ts[1..][q].Eos? && forall k :: 0 <= k < |ts[1..]| && k != q ==> ts[1..][k].Literal?;
      assert ts[q + 1].Eos?;
      forall k | 0 <= k < |ts| && k != q + 1 ensures ts[k].Literal? { if k > 0 { assert ts[1..][k - 1] == ts[k]; } }
    }
  }

  // Read to the end, with both variables seen.
  predicate Complete(st: Option<BranchState>) {
    st.Some? && st.value.content && st.value.eos
  }

  lemma {:induction false} AfterContent(st: BranchState, ts: seq<Term>, eos: string)
    requires st.content && !st.eos
    ensures Complete(AddTerms(st, ts, eos)) <==> EosOnce(ts)
    decreases |ts|
  {
    if ts != [] {
      EosFirst(ts);
      hide EosOnce, AllLiterals;
      var st1 := AddTerm(st, ts[0], eos);
      if ts[0].Literal? {
        AfterContent(st1.value, ts[1..], eos);
      } else if ts[0].Eos? {
        AfterBoth(st1.value, ts[1..], eos);
      }
    }
  }

  lemma ContentFirst(ts: seq<Term>)
    requires ts != []
    ensures ContentThenEos(ts) <==> (ts[0].Content? && EosOnce(ts[1..])) || (ts[0].Literal? && ContentThenEos(ts[1..]))
  {
    hide EosOnce;
    if ContentThenEos(ts) {
      var p: nat :| p < |ts| && ts[p].Content? && AllLiterals(ts[..p]) && EosOnce(ts[p + 1..]);
      if p > 0 {
        assert ts[..p][0] == ts[0] && ts[1..][p - 1] == ts[p];
        assert ts[1..][..p - 1] == ts[..p][1..] && ts[1..][p..] == ts[p + 1..];
      }
    }
    if ts[0].Content? && EosOnce(ts[1..]) {
      assert ts[..0] == [] && ts[0 + 1..] == ts[1..];
    }
    if ts[0].Literal? && ContentThenEos(ts[1..]) {
      var p: nat :| p < |ts[1..]| && ts[1..][p].Content? && AllLiterals(ts[1..][..p]) && EosOnce(ts[1..][p + 1..]);
      assert ts[p + 1].Content? && ts[..p + 1] == [ts[0]] + ts[1..][..p] && ts[1..][p + 1..] == ts[p + 1 + 1..];
    }
  }

  lemma {:induction false} TermsAccept(st: BranchState, ts: seq<Term>, eos: string)
    requires !st.content && !st.eos
    ensures Complete(AddTerms(st, ts, eos)) <==> ContentThenEos(ts)
    decreases |ts|
  {
    if ts != [] {
      ContentFirst(ts);
      hide ContentThenEos, EosOnce;
      var st1 := AddTerm(st, ts[0], eos);
      if ts[0].Literal? {
        TermsAccept(st1.value, ts[1..], eos);
      } else if ts[0].Content? {
        AfterContent(st1.value, ts[1..], eos);
      }
    }
  }

  // Behind the output only whitespace is accepted, and it changes no flag.
  lemma {:induction false} AfterOutput(st: BranchState, ss: seq<Stmt>, eos: string)
    requires st.output
    ensures AddStmts(st, ss, eos).Some? <==> AllBlank(ss)
    ensures AddStmts(st, ss, eos).Some? ==> var r := AddStmts(st, ss, eos).value; r.output && r.content == st.content && r.eos == st.eos
    decreases |ss|
  {
    hide Whitespace;
    if ss != [] {
      var st1 := AddStmt(st, ss[0], eos);
      if st1.Some? { AfterOutput(st1.value, ss[1..], eos); }
    }
  }

  lemma RoleMoves(ss: seq<Stmt>)
    requires ss != [] && BlankText(ss[0])
    ensures SupportedRole(ss[1..]) <==> SupportedRole(ss)
  {
    hide Alone, ContentThenEos;
    if SupportedRole(ss) {
      var i: nat :| i < |ss| && Alone(ss, i) && ss[i].Output? && ContentThenEos(ss[i].terms);
      MovesBack(ss, i);
      assert ss[1..][i - 1] == ss[i];
    }
    if SupportedRole(ss[1..]) {
      var i: nat :| i < |ss[1..]| && Alone(ss[1..], i) && ss[1..][i].Output? && ContentThenEos(ss[1..][i].terms);
      AloneMoves(ss, i);
      assert ss[1..][i] == ss[i + 1];
    }
  }

  lemma RoleFirst(ss: seq<Stmt>)
    requires ss != [] && !BlankText(ss[0])
    ensures SupportedRole(ss) <==> ss[0].Output? && ContentThenEos(ss[0].terms) && AllBlank(ss[1..])
  {
    hide Alone, ContentThenEos, AllBlank;
    forall i: nat | i < |ss| ensures Alone(ss, i) <==> i == 0 && AllBlank(ss[1..]) { AloneFirst(ss, i); }
  }

  predicate Finished(st: Option<BranchState>) {
    Complete(st) && st.value.output
  }

  lemma {:induction false} StmtsAccept(st: BranchState, ss: seq<Stmt>, eos: string)
    requires !st.output && !st.content && !st.eos
    ensures Finished(AddStmts(st, ss, eos)) <==> SupportedRole(ss)
    decreases |ss|
  {
    hide SupportedRole, AllBlank, Whitespace, ContentThenEos, AddTerms;
    if ss == [] {
      NoGeneration();
    } else {
      var st1 := AddStmt(st, ss[0], eos);
      if BlankText(ss[0]) {
        RoleMoves(ss);
        StmtsAccept(st1.value, ss[1..], eos);
      } else {
        RoleFirst(ss);
        if ss[0].Output? {
          TermsAccept(st.(output := true), ss[0].terms, eos);
          if st1.Some? {
            TermsKeepOutput(st.(output := true), ss[0].terms, eos);
            AfterOutput(st1.value, ss[1..], eos);
          }
        }
      }
    }
  }

  lemma {:induction false} TermsKeepOutput(st: BranchState, ts: seq<Term>, eos: string)
    requires AddTerms(st, ts, eos).Some?
    ensures AddTerms(st, ts, eos).value.output == st.output
    decreases |ts|
  {
    if ts != [] {
      TermKeepsOutput(st, ts[0], eos);
      TermsKeepOutput(AddTerm(st, ts[0], eos).value, ts[1..], eos);
    }
  }

  lemma RoleAccepts(ss: seq<Stmt>, eos: string)
    ensures RoleAffix(ss, eos).Some? <==> SupportedRole(ss)
  {
    hide SupportedRole, AddStmts;
    StmtsAccept(EMPTY_BRANCH, ss, eos);
  }

  // ---------------------------------------------------------------- the role switch

  // The branches from here on, when those roles have been seen.
  ghost predicate SwitchFrom(bs: seq<Branch>, seen: set<Role>) {
    && (forall i :: 0 <= i < |bs| ==> bs[i].condition.RoleIs? && SupportedRole(bs[i].body) && bs[i].condition.role !in seen)
    && (forall i, j :: 0 <= i < j < |bs| ==> bs[i].condition != bs[j].condition)
    && forall r: Role :: HasRole(bs, r) || r in seen
  }

  lemma SwitchMoves(bs: seq<Branch>, seen: set<Role>)
    requires bs != []
    ensures SwitchFrom(bs, seen) <==>
      bs[0].condition.RoleIs? && bs[0].condition.role !in seen && SupportedRole(bs[0].body) && SwitchFrom(bs[1..], seen + {bs[0].condition.role})
  {
    hide SupportedRole;
    if SwitchFrom(bs, seen) {
      var role := bs[0].condition.role;
      forall i | 0 <= i < |bs[1..]| ensures bs[1..][i].condition.RoleIs? && SupportedRole(bs[1..][i].body) && bs[1..][i].condition.role !in seen + {role} {
        assert bs[1..][i] == bs[i + 1];
      }
      forall r: Role | r !in seen + {role} ensures HasRole(bs[1..], r) {
        assert HasRole(bs, r);
        var i :| 0 <= i < |bs| && bs[i].condition == RoleIs(r);
        assert bs[1..][i - 1] == bs[i];
      }
    }
    if bs[0].condition.RoleIs? && bs[0].condition.role !in seen && SupportedRole(bs[0].body) && SwitchFrom(bs[1..], seen + {bs[0].condition.role}) {
      SwitchGrows(bs, seen);
    }
  }

  lemma SwitchGrows(bs: seq<Branch>, seen: set<Role>)
    requires bs != [] && bs[0].condition.RoleIs? && bs[0].condition.role !in seen && SupportedRole(bs[0].body)
    requires SwitchFrom(bs[1..], seen + {bs[0].condition.role})
    ensures SwitchFrom(bs, seen)
  {
    hide SupportedRole;
    var role := bs[0].condition.role;
    forall i | 0 <= i < |bs| ensures bs[i].condition.RoleIs? && SupportedRole(bs[i].body) && bs[i].condition.role !in seen {
      if i > 0 { assert bs[1..][i - 1] == bs[i]; }
    }
    forall i, j | 0 <= i < j < |bs| ensures bs[i].condition != bs[j].condition {
      assert bs[1..][j - 1] == bs[j];
      if i > 0 { assert bs[1..][i - 1] == bs[i]; }
    }
    forall r: Role | r !in seen ensures HasRole(bs, r) {
      if r == role {
        assert bs[0].condition == RoleIs(r);
      } else {
        assert HasRole(bs[1..], r);
        var i :| 0 <= i < |bs[1..]| && bs[1..][i].condition == RoleIs(r);
        assert bs[i + 1].condition == RoleIs(r);
      }
    }
  }

  lemma NoneLeft(seen: map<Role, Affix>)
    ensures SwitchFrom([], seen.Keys) <==> AllRoles(seen)
  {
    forall r: Role | AllRoles(seen) ensures r in seen.Keys {
      match r case System => case User => case Assistant =>
    }
    if SwitchFrom([], seen.Keys) { assert System in seen.Keys && User in seen.Keys && Assistant in seen.Keys; }
  }

  lemma {:induction false} SwitchAccepts(bs: seq<Branch>, seen: map<Role, Affix>, eos: string)
    ensures CompileSwitch(bs, seen, eos).Some? <==> SwitchFrom(bs, seen.Keys)
    decreases |bs|
  {
    hide SwitchFrom, SupportedRole, RoleAffix, AllRoles;
    if bs == [] {
      NoneLeft(seen);
    } else {
      SwitchMoves(bs, seen.Keys);
      RoleAccepts(bs[0].body, eos);
      if bs[0].condition.RoleIs? && bs[0].condition.role !in seen && RoleAffix(bs[0].body, eos).Some? {
        var seen1 := seen[bs[0].condition.role := RoleAffix(bs[0].body, eos).value];
        assert seen1.Keys == seen.Keys + {bs[0].condition.role};
        SwitchAccepts(bs[1..], seen1, eos);
      }
    }
  }

  lemma WholeSwitch(bs: seq<Branch>)
    ensures SwitchFrom(bs, {}) <==> SupportedSwitch(bs)
  {
    hide SupportedRole;
    hide HasRole;
  }

  // ---------------------------------------------------------------- endings, loop bodies, templates

  lemma GenerationBlockAccepts(s: Stmt)
    ensures GenerationBlock(s).Some? <==> GenerationIf(s)
  {
    hide GenerationFrom, SupportedGeneration;
    if s.If? && |s.branches| == 1 { GenerationAccepts(s.branches[0].body); }
  }

  // The first statement that is no text is the one that stands alone.
  lemma AloneIsLead(ss: seq<Stmt>, i: nat)
    requires i < |ss| && !ss[i].Text?
    ensures AllBlank(ss[..i]) ==> Lead(ss) == i
    ensures Alone(ss, i) <==> AllBlank(ss[..i]) && AllBlank(ss[i + 1..])
  {
    hide Whitespace;
    if AllBlank(ss[..i]) {
      forall j | 0 <= j < i ensures ss[j].Text? { assert ss[..i][j] == ss[j]; }
    }
    if Alone(ss, i) {
      var rest := ss[i + 1..];
      forall j | 0 <= j < |rest| ensures BlankText(rest[j]) { assert rest[j] == ss[i + 1 + j]; }
    }
    if AllBlank(ss[..i]) && AllBlank(ss[i + 1..]) {
      forall j | 0 <= j < |ss| && j != i ensures BlankText(ss[j]) {
        if j < i { assert ss[..i][j] == ss[j]; } else { assert ss[i + 1..][j - i - 1] == ss[j]; }
      }
    }
  }

  lemma BlankLead(ss: seq<Stmt>)
    requires AllBlank(ss)
    ensures Lead(ss) == |ss|
  {
    hide Whitespace;
  }

  lemma EndingAccepts(ss: seq<Stmt>)
    ensures CompileEnding(ss).Some? <==> SupportedEnding(ss)
    ensures CompileEnding(ss).Some? ==> (CompileEnding(ss).value.generation.Some? <==> HasIf(ss))
  {
    hide Lead, AllBlank, Alone, GenerationIf, GenerationBlock, Join;
    var m := Lead(ss);
    JoinAccepts(ss[..m]);
    if m == |ss| {
      assert ss[..m] == ss;
    } else {
      JoinAccepts(ss[m + 1..]);
      GenerationBlockAccepts(ss[m]);
      AloneIsLead(ss, m);
      if AllBlank(ss) { BlankLead(ss); }
      BlockIsIf(ss[m]);
    }
    if i: nat :| i < |ss| && Alone(ss, i) && GenerationIf(ss[i]) {
      BlockIsIf(ss[i]);
      AloneIsLead(ss, i);
    }
  }

  lemma BlockIsIf(s: Stmt)
    ensures GenerationIf(s) ==> s.If? && !s.Text?
  {
  }

  // Both sides look at the first statement that is no text.
  lemma AroundIsLead(ss: seq<Stmt>, k: nat)
    requires k < |ss| && Around(ss, k) && !ss[k].Text?
    ensures Lead(ss) == k
  {
    hide SupportedEnding, Alone;
    AloneIsLead(ss, k);
  }

  lemma LeadIsAround(ss: seq<Stmt>)
    requires Lead(ss) < |ss|
    ensures Around(ss, Lead(ss)) <==> Join(ss[..Lead(ss)]).Some? && CompileEnding(ss[Lead(ss) + 1..]).Some?
  {
    hide Join, CompileEnding, SupportedEnding, AllBlank, Lead;
    JoinAccepts(ss[..Lead(ss)]);
    EndingAccepts(ss[Lead(ss) + 1..]);
  }

  lemma BodyAccepts(ss: seq<Stmt>, eos: string)
    ensures CompileBody(ss, eos).Some? <==> SupportedBody(ss)
  {
    hide Around, SupportedSwitch, SwitchFrom, Join, CompileEnding, CompileSwitch, Lead;
    var k := Lead(ss);
    if k < |ss| && ss[k].If? {
      LeadIsAround(ss);
      var none: map<Role, Affix> := map[];
      assert none.Keys == {};
      SwitchAccepts(ss[k].branches, none, eos);
      WholeSwitch(ss[k].branches);
    }
    if SupportedBody(ss) {
      var i: nat :| i < |ss| && Around(ss, i) && ss[i].If? && SupportedSwitch(ss[i].branches);
      AroundIsLead(ss, i);
    }
  }

  // The loop body has a generation block of its own exactly when a second conditional stands in it.
  lemma BodyGenerates(ss: seq<Stmt>, eos: string)
    requires CompileBody(ss, eos).Some?
    ensures CompileBody(ss, eos).value.ending.generation.Some? <==> Generates(ss)
  {
    hide Join, CompileEnding, CompileSwitch, HasIf;
    var k := Lead(ss);
    EndingAccepts(ss[k + 1..]);
    if i: nat :| i < |ss| && ss[i].If? && HasIf(ss[i + 1..]) {
      LaterIf(ss, k, i);
    }
  }

  lemma LaterIf(ss: seq<Stmt>, k: nat, i: nat)
    requires k <= i < |ss| && HasIf(ss[i + 1..])
    ensures HasIf(ss[k + 1..])
  {
    var j: nat :| j < |ss[i + 1..]| && ss[i + 1..][j].If?;
    assert ss[k + 1..][i - k + j] == ss[i + 1..][j];
  }

  // The compiler accepts exactly the supported templates.
  lemma CompileAccepts(ss: seq<Stmt>, eos: string)
    ensures CompileStmts(ss, eos).Some? <==> Supported(ss)
  {
    hide Around, SupportedBody, Generates, HasIf, Join, CompileEnding, CompileBody, Lead, Assemble;
    var k := Lead(ss);
    if k < |ss| && ss[k].For? {
      LeadIsAround(ss);
      BodyAccepts(ss[k].body, eos);
      EndingAccepts(ss[k + 1..]);
      if CompileBody(ss[k].body, eos).Some? {
        BodyGenerates(ss[k].body, eos);
        if CompileEnding(ss[k + 1..]).Some? && Join(ss[..k]).Some? {
          AssembleAccepts(Join(ss[..k]).value, CompileBody(ss[k].body, eos).value, CompileEnding(ss[k + 1..]).value);
        }
      }
    }
    if Supported(ss) {
      var i: nat :| i < |ss| && Around(ss, i) && ss[i].For? && SupportedBody(ss[i].body) && !(Generates(ss[i].body) && HasIf(ss[i + 1..]));
      AroundIsLead(ss, i);
    }
  }

  lemma AssembleAccepts(prefix: string, parts: LoopParts, after: Ending)
    ensures Assemble(prefix, parts, after).Some? <==> !(parts.ending.generation.Some? && after.generation.Some?)
  {
  }
}

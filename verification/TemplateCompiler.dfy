// The compiler as it scans the token vector by index, proved to compile exactly the supported
// templates: its result is that of compiling the parsed statements.

module TemplateCompiler {
  import opened SizeT
  import opened ChatLexer
  import opened ChatExpression
  import opened ChatTemplate
  import opened ChatCompiler

  // ---------------------------------------------------------------- token ranges as statements

  predicate AllText(ts: seq<Token>, i: nat, k: nat)
    requires i <= k <= |ts|
  {
    forall j :: i <= j < k ==> ts[j].kind.TextToken?
  }

  predicate NoBlock(ts: seq<Token>, i: nat, k: nat)
    requires i <= k <= |ts|
  {
    forall j :: i <= j < k ==> !ts[j].kind.BlockToken?
  }

  // The text and output tokens of a range; None when an output does not parse.
  function Simples(ts: seq<Token>, i: nat, k: nat): Option<seq<Stmt>>
    requires i <= k <= |ts|
    decreases k - i
  {
    if i == k then Some([])
    else
      var s, rest := Simple(ts[i]), Simples(ts, i + 1, k);
      if s.None? || rest.None? then None else Some([s.value] + rest.value)
  }

  function Texts(ts: seq<Token>, i: nat, k: nat): (r: seq<Stmt>)
    requires i <= k <= |ts|
    ensures |r| == k - i && forall j :: 0 <= j < |r| ==> r[j].Text?
    decreases k - i
  {
    if i == k then [] else [Text(ts[i].text)] + Texts(ts, i + 1, k)
  }

  lemma {:induction false} TextsAreSimples(ts: seq<Token>, i: nat, k: nat)
    requires i <= k <= |ts| && AllText(ts, i, k)
    ensures Simples(ts, i, k) == Some(Texts(ts, i, k))
    decreases k - i
  {
    if i < k { TextsAreSimples(ts, i + 1, k); }
  }

  function Then(a: Option<seq<Stmt>>, rest: Option<(seq<Stmt>, nat)>): Option<(seq<Stmt>, nat)> {
    if a.None? || rest.None? then None else Some((a.value + rest.value.0, rest.value.1))
  }

  lemma ThenNothing(rest: Option<(seq<Stmt>, nat)>)
    ensures Then(Some([]), rest) == rest
  {
    if rest.Some? { assert [] + rest.value.0 == rest.value.0; }
  }

  lemma ThenCons(s: Stmt, a: seq<Stmt>, rest: Option<(seq<Stmt>, nat)>)
    ensures Then(Some([s] + a), rest) == Cons(s, Then(Some(a), rest))
  {
    if rest.Some? { assert [s] + (a + rest.value.0) == [s] + a + rest.value.0; }
  }

  // A run of tokens without blocks parses token by token.
  lemma {:induction false} RunParses(ts: seq<Token>, i: nat, k: nat)
    requires i <= k <= |ts| && NoBlock(ts, i, k)
    ensures ParseFrom(ts, i) == Then(Simples(ts, i, k), ParseFrom(ts, k))
    decreases k - i
  {
    hide Simple, ParseBlock, Classify;
    if i == k {
      ThenNothing(ParseFrom(ts, k));
    } else {
      RunParses(ts, i + 1, k);
      var s, rest := Simple(ts[i]), Simples(ts, i + 1, k);
      if s.Some? && rest.Some? { ThenCons(s.value, rest.value, ParseFrom(ts, k)); }
    }
  }

  lemma {:induction false} LeadOf(a: seq<Stmt>, b: seq<Stmt>)
    requires forall j :: 0 <= j < |a| ==> a[j].Text?
    requires b == [] || !b[0].Text?
    ensures Lead(a + b) == |a|
  {
    if a == [] {
      assert a + b == b;
    } else {
      assert (a + b)[1..] == a[1..] + b;
      LeadOf(a[1..], b);
    }
  }

  // Leading text tokens are the leading text statements.
  lemma LeadParse(ts: seq<Token>, i: nat, k: nat)
    requires i <= k <= |ts| && AllText(ts, i, k) && (k < |ts| ==> !ts[k].kind.TextToken?)
    ensures ParseFrom(ts, i) == Then(Some(Texts(ts, i, k)), ParseFrom(ts, k))
    ensures ParseFrom(ts, i).Some? ==>
      var ss := ParseFrom(ts, i).value.0;
      Lead(ss) == k - i && ss[..k - i] == Texts(ts, i, k) && ss[k - i..] == ParseFrom(ts, k).value.0
  {
    RunParses(ts, i, k);
    TextsAreSimples(ts, i, k);
    if ParseFrom(ts, k).Some? { LeadOf(Texts(ts, i, k), ParseFrom(ts, k).value.0); }
  }

  // ---------------------------------------------------------------- branches

  function FoldTokens(ts: seq<Token>, i: nat, k: nat, st: BranchState, eos: string): Option<BranchState>
    requires i <= k <= |ts|
    decreases k - i
  {
    if i == k then Some(st)
    else
      var s := Simple(ts[i]);
      var st1 := if s.None? then None else AddStmt(st, s.value, eos);
      if st1.None? then None else FoldTokens(ts, i + 1, k, st1.value, eos)
  }

  lemma {:induction false} FoldIsAdd(ts: seq<Token>, i: nat, k: nat, st: BranchState, eos: string)
    requires i <= k <= |ts|
    ensures FoldTokens(ts, i, k, st, eos) == if Simples(ts, i, k).None? then None else AddStmts(st, Simples(ts, i, k).value, eos)
    decreases k - i
  {
    if i < k && Simple(ts[i]).Some? && AddStmt(st, Simple(ts[i]).value, eos).Some? {
      FoldIsAdd(ts, i + 1, k, AddStmt(st, Simple(ts[i]).value, eos).value, eos);
    }
  }

  function FoldGeneration(ts: seq<Token>, i: nat, k: nat, seen: bool, text: string): Option<string>
    requires i <= k <= |ts|
    decreases k - i
  {
    if i == k then (if seen then Some(text) else None)
    else
      var s := Simple(ts[i]);
      if s.None? then None
      else if s.value.Text? then
        if Whitespace(s.value.text) then FoldGeneration(ts, i + 1, k, seen, text + s.value.text) else None
      else if seen || Literals(s.value.terms).None? then None
      else FoldGeneration(ts, i + 1, k, true, text + Literals(s.value.terms).value)
  }

  function PrependString(a: string, b: Option<string>): Option<string> {
    if b.None? then None else Some(a + b.value)
  }

  lemma {:induction false} FoldIsGeneration(ts: seq<Token>, i: nat, k: nat, seen: bool, text: string)
    requires i <= k <= |ts|
    ensures FoldGeneration(ts, i, k, seen, text)
         == if Simples(ts, i, k).None? then None else PrependString(text, GenerationFrom(Simples(ts, i, k).value, seen))
    decreases k - i
  {
    if i == k {
      assert text + "" == text;
    } else if Simple(ts[i]).Some? {
      var s := Simple(ts[i]).value;
      var add := if s.Text? then s.text else if Literals(s.terms).Some? then Literals(s.terms).value else "";
      FoldIsGeneration(ts, i + 1, k, seen || s.Output?, text + add);
      if Simples(ts, i + 1, k).Some? {
        var rest := Simples(ts, i + 1, k).value;
        assert ([s] + rest)[1..] == rest;
        if GenerationFrom(rest, seen || s.Output?).Some? {
          assert text + (add + GenerationFrom(rest, seen || s.Output?).value) == text + add + GenerationFrom(rest, seen || s.Output?).value;
        }
      }
    }
  }

  // ---------------------------------------------------------------- what each part of the scan must return

  // The ending that the parse finds from token i on, and where it stops.
  function ExpectedEnding(ts: seq<Token>, i: nat): Option<(Ending, nat)>
    requires i <= |ts|
  {
    var p := ParseFrom(ts, i);
    if p.None? || CompileEnding(p.value.0).None? then None else Some((CompileEnding(p.value.0).value, p.value.1))
  }

  function ExpectedSwitch(ts: seq<Token>, i: nat, seen: map<Role, Affix>, eos: string): Option<(map<Role, Affix>, nat)>
    requires i < |ts|
  {
    var p := ParseBranches(ts, i);
    if p.None? || CompileSwitch(p.value.0, seen, eos).None? then None
    else Some((CompileSwitch(p.value.0, seen, eos).value, p.value.1))
  }

  function ExpectedBody(ts: seq<Token>, i: nat, eos: string): Option<(LoopParts, nat)>
    requires i <= |ts|
  {
    var p := ParseFrom(ts, i);
    if p.None? || CompileBody(p.value.0, eos).None? then None else Some((CompileBody(p.value.0, eos).value, p.value.1))
  }

  function Expected(ts: seq<Token>, eos: string): Option<Compiled> {
    var p := Parse(ts);
    if p.None? then None else CompileStmts(p.value, eos)
  }

  // Token i is where a list of statements can stop.
  predicate Stops(ts: seq<Token>, i: nat)
    requires i <= |ts|
  {
    i == |ts| || Closes(Classify(ts[i]))
  }

  lemma StopsParse(ts: seq<Token>, i: nat)
    requires i <= |ts| && Stops(ts, i)
    ensures ParseFrom(ts, i) == Some(([], i))
  {
  }

  // Where no list of statements can stop, the parse continues with a statement that is not text.
  lemma ContinuesParse(ts: seq<Token>, i: nat)
    requires i < |ts| && !Stops(ts, i) && !ts[i].kind.TextToken?
    ensures ParseFrom(ts, i).Some? ==> ParseFrom(ts, i).value.0 != [] && !ParseFrom(ts, i).value.0[0].Text?
    ensures ParseFrom(ts, i).Some? && ts[i].kind.BlockToken? ==> !ParseFrom(ts, i).value.0[0].Output?
  {
    hide Classify, OutputTerms;
  }

  // ---------------------------------------------------------------- endings

  // Text and nothing else up to where the statements stop.
  lemma TextEnding(ts: seq<Token>, i: nat, k: nat)
    requires i <= k <= |ts| && AllText(ts, i, k) && Stops(ts, k)
    ensures ExpectedEnding(ts, i)
         == if Join(Texts(ts, i, k)).None? then None else Some((Ending(Join(Texts(ts, i, k)).value, None, ""), k))
  {
    StopsParse(ts, k);
    LeadParse(ts, i, k);
    hide Join, ParseFrom, GenerationBlock;
    assert Texts(ts, i, k) + [] == Texts(ts, i, k);
  }

  // Text followed by something that is neither the end nor a generation block.
  lemma NoEnding(ts: seq<Token>, i: nat, k: nat)
    requires i <= k < |ts| && AllText(ts, i, k) && !ts[k].kind.TextToken? && !Stops(ts, k)
    requires ts[k].kind.BlockToken? && Classify(ts[k]).IfOpen? ==> GenerationCondition(ts[k].text) != Some(true)
    ensures ExpectedEnding(ts, i).None?
  {
    ContinuesParse(ts, k);
    LeadParse(ts, i, k);
    if ParseFrom(ts, k).Some? { NotGeneration(ts, k); }
    hide Join, ParseFrom, GenerationBlock;
  }

  lemma FirstCondition(ts: seq<Token>, i: nat)
    requires i < |ts| && ParseBranches(ts, i).Some?
    ensures ConditionOf(ts[i].text) == Some(ParseBranches(ts, i).value.0[0].condition)
  {
    hide ConditionOf, Classify, ParseFrom;
  }

  lemma NotGeneration(ts: seq<Token>, k: nat)
    requires k < |ts| && !ts[k].kind.TextToken? && !Stops(ts, k) && ParseFrom(ts, k).Some? && ParseFrom(ts, k).value.0 != []
    requires ts[k].kind.BlockToken? && Classify(ts[k]).IfOpen? ==> GenerationCondition(ts[k].text) != Some(true)
    ensures GenerationBlock(ParseFrom(ts, k).value.0[0]).None?
  {
    if ts[k].kind.BlockToken? && ParseBranches(ts, k).Some? { FirstCondition(ts, k); }
    hide Classify, GenerationCondition, RoleCondition, OutputTerms, ParseBranches;
  }

  lemma {:induction false} GenerationRejects(ss: seq<Stmt>, j: nat, seen: bool)
    requires j < |ss| && (ss[j].For? || ss[j].If?)
    ensures GenerationFrom(ss, seen).None?
    decreases j
  {
    if j > 0 { GenerationRejects(ss[1..], j - 1, seen || ss[0].Output?); }
  }

  lemma {:induction false} JoinRejects(a: seq<Stmt>, b: seq<Stmt>)
    requires b != [] && !b[0].Text?
    ensures Join(a + b).None?
  {
    if a == [] {
      assert a + b == b;
    } else {
      assert (a + b)[1..] == a[1..] + b;
      JoinRejects(a[1..], b);
    }
  }

  // The body of a branch up to the next block, which closes it or makes it unsupported.
  lemma BranchBody(ts: seq<Token>, i: nat, e: nat)
    requires i <= e <= |ts| && NoBlock(ts, i, e) && (e < |ts| ==> ts[e].kind.BlockToken?)
    ensures Stops(ts, e) ==> ParseFrom(ts, i) == if Simples(ts, i, e).None? then None else Some((Simples(ts, i, e).value, e))
    ensures !Stops(ts, e) && ParseFrom(ts, i).Some? ==>
      exists j :: 0 <= j < |ParseFrom(ts, i).value.0| && (ParseFrom(ts, i).value.0[j].For? || ParseFrom(ts, i).value.0[j].If?)
  {
    RunParses(ts, i, e);
    if Stops(ts, e) {
      StopsParse(ts, e);
      if Simples(ts, i, e).Some? { assert Simples(ts, i, e).value + [] == Simples(ts, i, e).value; }
    } else if ParseFrom(ts, i).Some? {
      ContinuesParse(ts, e);
      var a, b := Simples(ts, i, e).value, ParseFrom(ts, e).value.0;
      assert (a + b)[|a|] == b[0];
    }
  }

  // A block whose condition is the generation condition.
  predicate GenerationAt(ts: seq<Token>, k: nat) {
    k < |ts| && Classify(ts[k]).IfOpen? && GenerationCondition(ts[k].text) == Some(true)
  }

  lemma ClassifiedIsBlock(t: Token)
    requires !Classify(t).Unknown?
    ensures t.kind.BlockToken?
  {
  }

  // A generation block closed by endif.
  lemma GenerationCloses(ts: seq<Token>, k: nat, e: nat)
    requires k < e < |ts| && NoBlock(ts, k + 1, e) && GenerationAt(ts, k) && EndsWith(ts, e, EndIf, "endif")
    ensures ParseBlock(ts, k) == if Simples(ts, k + 1, e).None? then None
                                 else Some((If([Branch(LastAndPrompt, Simples(ts, k + 1, e).value)]), e + 1))
  {
    hide GenerationCondition, RoleCondition, OnlyWords, Simples, ParseFrom, Classify, NoBlock;
    ClassifiedIsBlock(ts[e]);
    BranchBody(ts, k + 1, e);
  }

  // One that is not is no supported generation block.
  lemma GenerationFails(ts: seq<Token>, k: nat, e: nat)
    requires k < e <= |ts| && NoBlock(ts, k + 1, e) && (e < |ts| ==> ts[e].kind.BlockToken?)
    requires GenerationAt(ts, k) && !EndsWith(ts, e, EndIf, "endif")
    ensures ParseBlock(ts, k).Some? ==> GenerationBlock(ParseBlock(ts, k).value.0).None?
  {
    hide GenerationCondition, RoleCondition, OnlyWords, Simples, ParseFrom, NoBlock, Classify, GenerationFrom;
    BranchBody(ts, k + 1, e);
    var body := ParseFrom(ts, k + 1);
    if !Stops(ts, e) && body.Some? {
      var j :| 0 <= j < |body.value.0| && (body.value.0[j].For? || body.value.0[j].If?);
      GenerationRejects(body.value.0, j, false);
    }
  }

  lemma BlockParses(ts: seq<Token>, k: nat)
    requires k < |ts| && ts[k].kind.BlockToken? && !Stops(ts, k)
    ensures ParseFrom(ts, k)
         == if ParseBlock(ts, k).None? then None else Cons(ParseBlock(ts, k).value.0, ParseFrom(ts, ParseBlock(ts, k).value.1))
  {
    hide ParseBlock, Classify;
  }

  lemma JoinAfter(ts: seq<Token>, i: nat, m: nat)
    requires i <= m <= |ts| && AllText(ts, i, m) && (m < |ts| ==> !ts[m].kind.TextToken?)
    requires ParseFrom(ts, i).Some?
    ensures Stops(ts, m) ==> ParseFrom(ts, i).value == (Texts(ts, i, m), m)
    ensures !Stops(ts, m) ==> Join(ParseFrom(ts, i).value.0).None?
  {
    hide Join, Classify, ParseBlock, Texts;
    LeadParse(ts, i, m);
    if Stops(ts, m) {
      StopsParse(ts, m);
      assert Texts(ts, i, m) + [] == Texts(ts, i, m);
    } else {
      ContinuesParse(ts, m);
      JoinRejects(Texts(ts, i, m), ParseFrom(ts, m).value.0);
    }
  }

  // Text, a closed generation block, and text up to token m.
  lemma GenerationEnding(ts: seq<Token>, i: nat, k: nat, e: nat, m: nat)
    requires i <= k < e < m <= |ts| && AllText(ts, i, k) && AllText(ts, e + 1, m) && (m < |ts| ==> !ts[m].kind.TextToken?)
    requires NoBlock(ts, k + 1, e) && GenerationAt(ts, k) && EndsWith(ts, e, EndIf, "endif")
    ensures ExpectedEnding(ts, i)
         == (var before, body, after := Join(Texts(ts, i, k)), Simples(ts, k + 1, e), Join(Texts(ts, e + 1, m));
             if before.None? || body.None? || GenerationFrom(body.value, false).None? || after.None? || !Stops(ts, m) then None
             else Some((Ending(before.value, GenerationFrom(body.value, false), after.value), m)))
  {
    hide Join, Classify, ParseBlock, ParseFrom, Texts, Simples, GenerationFrom, GenerationCondition, Lead, OnlyWords;
    ClassifiedIsBlock(ts[k]);
    GenerationCloses(ts, k, e);
    LeadParse(ts, i, k);
    BlockParses(ts, k);
    RunParses(ts, e + 1, m);
    if ParseFrom(ts, e + 1).Some? { JoinAfter(ts, e + 1, m); } else { AfterFails(ts, e + 1, m); }
    if ParseFrom(ts, i).Some? {
      var ss, n, rest := ParseFrom(ts, i).value.0, k - i, ParseFrom(ts, e + 1).value.0;
      SecondPart(ss, n, If([Branch(LastAndPrompt, Simples(ts, k + 1, e).value)]), rest);
    }
  }

  lemma SecondPart(ss: seq<Stmt>, n: nat, s: Stmt, rest: seq<Stmt>)
    requires n <= |ss| && ss[n..] == [s] + rest
    ensures n < |ss| && ss[n] == s && ss[n + 1..] == rest
  {
    assert ss[n..][0] == s && ss[n..][1..] == rest;
  }

  lemma AfterFails(ts: seq<Token>, i: nat, m: nat)
    requires i <= m <= |ts| && AllText(ts, i, m) && (m < |ts| ==> !ts[m].kind.TextToken?) && ParseFrom(ts, i).None?
    ensures !Stops(ts, m)
  {
    LeadParse(ts, i, m);
    if Stops(ts, m) { StopsParse(ts, m); }
  }

  // Text and a generation block that endif does not close.
  lemma OpenGenerationEnding(ts: seq<Token>, i: nat, k: nat, e: nat)
    requires i <= k < e <= |ts| && AllText(ts, i, k) && NoBlock(ts, k + 1, e) && (e < |ts| ==> ts[e].kind.BlockToken?)
    requires GenerationAt(ts, k) && !EndsWith(ts, e, EndIf, "endif")
    ensures ExpectedEnding(ts, i).None?
  {
    hide Join, Classify, ParseBlock, ParseFrom, Texts, GenerationBlock, GenerationCondition, Lead, OnlyWords, NoBlock;
    ClassifiedIsBlock(ts[k]);
    GenerationFails(ts, k, e);
    LeadParse(ts, i, k);
    BlockParses(ts, k);
    if ParseFrom(ts, i).Some? {
      SecondPart(ParseFrom(ts, i).value.0, k - i, ParseBlock(ts, k).value.0, ParseFrom(ts, ParseBlock(ts, k).value.1).value.0);
    }
  }

  // ---------------------------------------------------------------- the role switch

  lemma {:induction false} BranchRejects(st: BranchState, ss: seq<Stmt>, j: nat, eos: string)
    requires j < |ss| && (ss[j].For? || ss[j].If?)
    ensures AddStmts(st, ss, eos).None?
    decreases j
  {
    if j > 0 && AddStmt(st, ss[0], eos).Some? { BranchRejects(AddStmt(st, ss[0], eos).value, ss[1..], j - 1, eos); }
  }

  // One branch of the switch: its role, its body up to the next block, and what that block does.
  function SwitchNext(ts: seq<Token>, i: nat, e: nat, seen: map<Role, Affix>, eos: string): Option<(map<Role, Affix>, nat)>
    requires i < e <= |ts|
  {
    var role, body := RoleCondition(ts[i].text), Simples(ts, i + 1, e);
    if role.None? || role.value in seen || body.None? || RoleAffix(body.value, eos).None? || e == |ts| then None
    else
      var seen1 := seen[role.value := RoleAffix(body.value, eos).value];
      if Classify(ts[e]).Elif? then ExpectedSwitch(ts, e, seen1, eos)
      else if EndsWith(ts, e, EndIf, "endif") && AllRoles(seen1) then Some((seen1, e + 1))
      else None
  }

  lemma SwitchStep(ts: seq<Token>, i: nat, e: nat, seen: map<Role, Affix>, eos: string)
    requires i < e <= |ts| && NoBlock(ts, i + 1, e) && (e < |ts| ==> ts[e].kind.BlockToken?)
    requires GenerationCondition(ts[i].text) == Some(false)
    ensures ExpectedSwitch(ts, i, seen, eos) == SwitchNext(ts, i, e, seen, eos)
  {
    hide Classify, GenerationCondition, RoleCondition, OnlyWords, Simples, ParseFrom, NoBlock;
    BranchBody(ts, i + 1, e);
    var body := ParseFrom(ts, i + 1);
    if !Stops(ts, e) {
      if body.Some? {
        var j :| 0 <= j < |body.value.0| && (body.value.0[j].For? || body.value.0[j].If?);
        BranchRejects(EMPTY_BRANCH, body.value.0, j, eos);
      }
      hide AddStmts;
    } else {
      hide RoleAffix, AllRoles;
      SwitchStopped(ts, i, e, seen, eos);
    }
  }

  lemma SwitchStopped(ts: seq<Token>, i: nat, e: nat, seen: map<Role, Affix>, eos: string)
    requires i < e <= |ts| && GenerationCondition(ts[i].text) == Some(false)
    requires ParseFrom(ts, i + 1) == if Simples(ts, i + 1, e).None? then None else Some((Simples(ts, i + 1, e).value, e))
    ensures ExpectedSwitch(ts, i, seen, eos) == SwitchNext(ts, i, e, seen, eos)
  {
    hide Classify, GenerationCondition, RoleCondition, OnlyWords, Simples, ParseFrom, RoleAffix, AllRoles;
    var role, body := RoleCondition(ts[i].text), Simples(ts, i + 1, e);
    if role.Some? && body.Some? && e < |ts| {
      var branch := Branch(RoleIs(role.value), body.value);
      if Classify(ts[e]).Elif? && ParseBranches(ts, e).Some? {
        SwitchCons(branch, ParseBranches(ts, e).value.0, seen, eos);
      } else {
        assert [branch] + [] == [branch];
        SwitchCons(branch, [], seen, eos);
      }
    }
  }

  lemma SwitchCons(b: Branch, rest: seq<Branch>, seen: map<Role, Affix>, eos: string)
    requires b.condition.RoleIs?
    ensures CompileSwitch([b] + rest, seen, eos)
         == if b.condition.role in seen || RoleAffix(b.body, eos).None? then None
            else CompileSwitch(rest, seen[b.condition.role := RoleAffix(b.body, eos).value], eos)
  {
    assert ([b] + rest)[1..] == rest;
    hide RoleAffix, AllRoles;
  }

  // ---------------------------------------------------------------- the loop body and the template

  // Whitespace, the role switch, and an ending.
  function BodyNext(ts: seq<Token>, i: nat, k: nat, eos: string): Option<(LoopParts, nat)>
    requires i <= k < |ts|
  {
    var prefix, switch := Join(Texts(ts, i, k)), ExpectedSwitch(ts, k, map[], eos);
    if prefix.None? || switch.None? then None
    else
      var ending := ExpectedEnding(ts, switch.value.1);
      if ending.None? then None else Some((LoopParts(prefix.value, switch.value.0, ending.value.0), ending.value.1))
  }

  lemma BodyStep(ts: seq<Token>, i: nat, k: nat, eos: string)
    requires i <= k < |ts| && AllText(ts, i, k) && Classify(ts[k]).IfOpen?
    ensures ExpectedBody(ts, i, eos) == BodyNext(ts, i, k, eos)
  {
    hide Classify, Join, ParseFrom, ParseBlock, ParseBranches, Texts, CompileSwitch, CompileEnding, Lead, AllText;
    ClassifiedIsBlock(ts[k]);
    LeadParse(ts, i, k);
    BlockParses(ts, k);
    IfParses(ts, k);
    if ParseBranches(ts, k).Some? {
      var (branches, n) := ParseBranches(ts, k).value;
      if ParseFrom(ts, n).Some? { SecondPart(ParseFrom(ts, i).value.0, k - i, If(branches), ParseFrom(ts, n).value.0); }
    }
  }

  lemma IfParses(ts: seq<Token>, k: nat)
    requires k < |ts| && Classify(ts[k]).IfOpen?
    ensures ParseBlock(ts, k)
         == if ParseBranches(ts, k).None? then None else Some((If(ParseBranches(ts, k).value.0), ParseBranches(ts, k).value.1))
  {
    hide Classify, ParseBranches;
  }

  // No role switch follows the leading text.
  lemma NoSwitch(ts: seq<Token>, i: nat, k: nat, eos: string)
    requires i <= k <= |ts| && AllText(ts, i, k) && (k < |ts| ==> !ts[k].kind.TextToken?)
    requires k < |ts| && Classify(ts[k]).IfOpen? ==> GenerationCondition(ts[k].text) != Some(false)
    ensures ExpectedBody(ts, i, eos).None?
  {
    LeadParse(ts, i, k);
    if ParseFrom(ts, i).Some? {
      if Stops(ts, k) { StopsParse(ts, k); } else { NotSwitch(ts, k, eos); }
    }
    hide Classify, Join, ParseFrom, Texts, CompileSwitch, CompileEnding, Lead;
  }

  lemma NotSwitch(ts: seq<Token>, k: nat, eos: string)
    requires k < |ts| && !ts[k].kind.TextToken? && !Stops(ts, k) && ParseFrom(ts, k).Some?
    requires Classify(ts[k]).IfOpen? ==> GenerationCondition(ts[k].text) != Some(false)
    ensures ParseFrom(ts, k).value.0 != []
    ensures var s := ParseFrom(ts, k).value.0[0]; !s.If? || CompileSwitch(s.branches, map[], eos).None?
  {
    if ts[k].kind.BlockToken? && ParseBranches(ts, k).Some? { FirstCondition(ts, k); }
    hide Classify, GenerationCondition, RoleCondition, OutputTerms, ParseBranches, RoleAffix;
  }

  // Whitespace, the message loop, and an ending up to the end of the template.
  function TemplateNext(ts: seq<Token>, k: nat, eos: string): Option<Compiled>
    requires k < |ts|
  {
    var prefix, body := Join(Texts(ts, 0, k)), ExpectedBody(ts, k + 1, eos);
    if prefix.None? || !OnlyWords(ts[k].text, ["for", "message", "in", "messages"]) || body.None?
      || !EndsWith(ts, body.value.1, EndFor, "endfor") then None
    else
      var after := ExpectedEnding(ts, body.value.1 + 1);
      if after.None? || after.value.1 != |ts| then None else Assemble(prefix.value, body.value.0, after.value.0)
  }

  lemma TemplateStep(ts: seq<Token>, k: nat, eos: string)
    requires k < |ts| && AllText(ts, 0, k) && Classify(ts[k]).ForOpen?
    ensures Expected(ts, eos) == TemplateNext(ts, k, eos)
  {
    hide Classify, Join, ParseFrom, ParseBlock, Texts, CompileBody, CompileEnding, Lead, Assemble, OnlyWords, AllText, Closes;
    ClassifiedIsBlock(ts[k]);
    ForOpensLoop(ts, k);
    LeadParse(ts, 0, k);
    BlockParses(ts, k);
    ForParses(ts, k);
    hide EndsWith;
    if ParseBlock(ts, k).Some? {
      var (s, n) := ParseBlock(ts, k).value;
      if ParseFrom(ts, n).Some? { SecondPart(ParseFrom(ts, 0).value.0, k, s, ParseFrom(ts, n).value.0); }
    }
  }

  lemma ForOpensLoop(ts: seq<Token>, k: nat)
    requires k < |ts| && Classify(ts[k]).ForOpen?
    ensures !Stops(ts, k)
  {
    hide Classify;
  }

  lemma ForParses(ts: seq<Token>, k: nat)
    requires k < |ts| && Classify(ts[k]).ForOpen?
    ensures ParseBlock(ts, k)
         == (var body := ParseFrom(ts, k + 1);
             if !OnlyWords(ts[k].text, ["for", "message", "in", "messages"]) || body.None? || !EndsWith(ts, body.value.1, EndFor, "endfor")
             then None else Some((For(body.value.0), body.value.1 + 1)))
  {
    hide Classify, ParseFrom, OnlyWords;
  }

  // The first block is not the message loop.
  lemma NoLoop(ts: seq<Token>, k: nat, eos: string)
    requires k <= |ts| && AllText(ts, 0, k) && (k < |ts| ==> !ts[k].kind.TextToken? && !Classify(ts[k]).ForOpen?)
    ensures Expected(ts, eos).None?
  {
    LeadParse(ts, 0, k);
    if ParseFrom(ts, 0).Some? {
      if Stops(ts, k) { StopsParse(ts, k); } else { NotLoop(ts, k); }
    }
    hide Classify, Join, ParseFrom, Texts, CompileBody, CompileEnding, Lead, Assemble;
  }

  lemma NotLoop(ts: seq<Token>, k: nat)
    requires k < |ts| && !ts[k].kind.TextToken? && !Stops(ts, k) && !Classify(ts[k]).ForOpen? && ParseFrom(ts, k).Some?
    ensures ParseFrom(ts, k).value.0 != [] && !ParseFrom(ts, k).value.0[0].For?
  {
    hide Classify, OutputTerms, ParseBranches;
  }

  // An elif is never the generation condition.
  lemma ElifCondition(t: Token)
    requires Classify(t).Elif?
    ensures GenerationCondition(t.text) == Some(false)
  {
  }

  // ---------------------------------------------------------------- the compiler

  class TemplateCompiler {
    const tokens: seq<Token>
    const eos: string

    constructor (tokens: seq<Token>, eos: string)
      ensures this.tokens == tokens && this.eos == eos
    {
      this.tokens, this.eos := tokens, eos;
    }

    method FirstNonText(begin: nat) returns (index: nat)
      requires begin <= |tokens|
      ensures begin <= index <= |tokens| && AllText(tokens, begin, index)
      ensures index < |tokens| ==> !tokens[index].kind.TextToken?
    {
      index := begin;
      while index < |tokens| && tokens[index].kind.TextToken?
        invariant begin <= index <= |tokens| && AllText(tokens, begin, index)
      {
        index := index + 1;
      }
    }

    method NextBlock(begin: nat) returns (index: nat)
      requires begin <= |tokens|
      ensures begin <= index <= |tokens| && NoBlock(tokens, begin, index)
      ensures index < |tokens| ==> tokens[index].kind.BlockToken?
    {
      index := begin;
      while index < |tokens| && !tokens[index].kind.BlockToken?
        invariant begin <= index <= |tokens| && NoBlock(tokens, begin, index)
      {
        index := index + 1;
      }
    }

    // append_text_range over a range of text tokens
    method AppendTextRange(begin: nat, end: nat) returns (text: Option<string>)
      requires begin <= end <= |tokens| && AllText(tokens, begin, end)
      ensures text == Join(Texts(tokens, begin, end))
    {
      var destination := "";
      PrependEmpty(Join(Texts(tokens, begin, end)));
      for index := begin to end
        invariant Join(Texts(tokens, begin, end)) == PrependString(destination, Join(Texts(tokens, index, end)))
      {
        var t := tokens[index].text;
        JoinStep(destination, t, Texts(tokens, index + 1, end));
        for i := 0 to |t|
          invariant forall k :: 0 <= k < i ==> IsSpace(t[k])
        {
          if !IsSpace(t[i]) {
            assert !Whitespace(t);
            return None;
          }
        }
        destination := destination + t;
      }
      assert destination + "" == destination;
      text := Some(destination);
    }

    method CompileRoleBranch(begin: nat, end: nat) returns (r: Option<Affix>)
      requires begin <= end <= |tokens| && NoBlock(tokens, begin, end)
      ensures r == if Simples(tokens, begin, end).None? then None else RoleAffix(Simples(tokens, begin, end).value, eos)
    {
      FoldIsAdd(tokens, begin, end, EMPTY_BRANCH, eos);
      hide OutputTerms, Simples, AddStmts, AddStmt, Simple, NoBlock;
      var st := EMPTY_BRANCH;
      for index := begin to end
        invariant FoldTokens(tokens, begin, end, EMPTY_BRANCH, eos) == FoldTokens(tokens, index, end, st, eos)
      {
        var next := AppendToken(st, tokens[index]);
        if next.None? {
          return None;
        }
        st := next.value;
      }
      r := if st.output && st.content && st.eos then Some(Affix(st.before, st.after)) else None;
    }

    // One text or output token of a role branch.
    method AppendToken(st: BranchState, token: Token) returns (r: Option<BranchState>)
      ensures r == if Simple(token).None? then None else AddStmt(st, Simple(token).value, eos)
    {
      hide OutputTerms, AddTerms;
      if token.kind.TextToken? {
        return if !Whitespace(token.text) then None
               else if st.output then Some(st.(after := st.after + token.text))
               else Some(st.(before := st.before + token.text));
      }
      if token.kind.BlockToken? || st.output {
        return None;
      }
      var terms := ParseOutput(token.text);
      if terms.None? {
        return None;
      }
      r := AppendTerms(st.(output := true), terms.value);
    }

    // Whitespace up to the end of a list of statements, around at most one generation block.
    method ReadEnding(begin: nat) returns (r: Option<(Ending, nat)>)
      requires begin <= |tokens|
      ensures r.None? ==> ExpectedEnding(tokens, begin).None?
      ensures r.Some? ==> begin <= r.value.1 <= |tokens|
      ensures r.Some? ==> ExpectedEnding(tokens, begin) == if Stops(tokens, r.value.1) then r else None
    {
      hide Join, Simples, Texts, GenerationFrom, ExpectedEnding, Classify, GenerationCondition, OnlyWords, EndsWith;
      var k := FirstNonText(begin);
      if k < |tokens| && Classify(tokens[k]).IfOpen? {
        var condition := IsGenerationCondition(tokens[k].text);
        IfContinues(tokens, k);
        if condition != Some(true) {
          NoEnding(tokens, begin, k);
          if condition.None? {
            return None;
          }
        } else {
          r := ReadGeneration(begin, k);
          return;
        }
      } else if !Stops(tokens, k) {
        NoEnding(tokens, begin, k);
      }
      if Stops(tokens, k) { TextEnding(tokens, begin, k); }
      var before := AppendTextRange(begin, k);
      r := if before.None? then None else Some((Ending(before.value, None, ""), k));
    }

    // The generation block at token k, and the text after it.
    method ReadGeneration(begin: nat, k: nat) returns (r: Option<(Ending, nat)>)
      requires begin <= k < |tokens| && AllText(tokens, begin, k) && GenerationAt(tokens, k)
      ensures r.None? ==> ExpectedEnding(tokens, begin).None?
      ensures r.Some? ==> begin <= r.value.1 <= |tokens|
      ensures r.Some? ==> ExpectedEnding(tokens, begin) == if Stops(tokens, r.value.1) then r else None
    {
      hide Join, Simples, Texts, GenerationFrom, ExpectedEnding, Classify, GenerationCondition, OnlyWords, Stops;
      var end := NextBlock(k + 1);
      if end == |tokens| || !Classify(tokens[end]).EndIf? {
        OpenGenerationEnding(tokens, begin, k, end);
        return None;
      }
      var closed := ParseWords(tokens[end].text, ["endif"]);
      if !closed {
        OpenGenerationEnding(tokens, begin, k, end);
        return None;
      }
      var after := FirstNonText(end + 1);
      GenerationEnding(tokens, begin, k, end, after);
      var before := AppendTextRange(begin, k);
      if before.None? {
        return None;
      }
      var generation := CompileGenerationBranch(k + 1, end);
      if generation.None? {
        return None;
      }
      var rest := AppendTextRange(end + 1, after);
      r := if rest.None? then None else Some((Ending(before.value, generation, rest.value), after));
    }

    // The role switch from its if block at token begin.
    method ReadSwitch(begin: nat) returns (r: Option<(map<Role, Affix>, nat)>)
      requires begin < |tokens| && GenerationCondition(tokens[begin].text) == Some(false)
      ensures r == ExpectedSwitch(tokens, begin, map[], eos)
    {
      hide RoleAffix, Simples, ExpectedSwitch, Classify, GenerationCondition, RoleCondition, OnlyWords;
      var index := begin;
      var seen: map<Role, Affix> := map[];
      while true
        invariant begin <= index < |tokens| && GenerationCondition(tokens[index].text) == Some(false)
        invariant ExpectedSwitch(tokens, begin, map[], eos) == ExpectedSwitch(tokens, index, seen, eos)
        decreases |tokens| - index
      {
        var role := ParseRoleCondition(tokens[index].text);
        var end := NextBlock(index + 1);
        SwitchStep(tokens, index, end, seen, eos);
        if role.None? || role.value in seen {
          return None;
        }
        var affix := CompileRoleBranch(index + 1, end);
        if affix.None? {
          return None;
        }
        seen := seen[role.value := affix.value];
        if end == |tokens| {
          return None;
        }
        if Classify(tokens[end]).Elif? {
          ElifCondition(tokens[end]);
          index := end;
          continue;
        }
        if !Classify(tokens[end]).EndIf? {
          return None;
        }
        var closed := ParseWords(tokens[end].text, ["endif"]);
        if !closed || !AllRoles(seen) {
          return None;
        }
        return Some((seen, end + 1));
      }
    }

    // The loop body from token begin: whitespace, the role switch, and an ending.
    method ReadBody(begin: nat) returns (r: Option<(LoopParts, nat)>)
      requires begin <= |tokens|
      ensures r.None? ==> ExpectedBody(tokens, begin, eos).None?
      ensures r.Some? ==> begin <= r.value.1 <= |tokens|
      ensures r.Some? ==> ExpectedBody(tokens, begin, eos) == if Stops(tokens, r.value.1) then r else None
    {
      hide Join, Texts, ExpectedEnding, ExpectedSwitch, ExpectedBody, Classify, GenerationCondition, Stops;
      var k := FirstNonText(begin);
      if k == |tokens| || !Classify(tokens[k]).IfOpen? {
        NoSwitch(tokens, begin, k, eos);
        return None;
      }
      var condition := IsGenerationCondition(tokens[k].text);
      if condition != Some(false) {
        NoSwitch(tokens, begin, k, eos);
        return None;
      }
      BodyStep(tokens, begin, k, eos);
      var prefix := AppendTextRange(begin, k);
      if prefix.None? {
        return None;
      }
      var switch := ReadSwitch(k);
      if switch.None? {
        return None;
      }
      SwitchAdvances(tokens, k, eos);
      var ending := ReadEnding(switch.value.1);
      r := if ending.None? then None else Some((LoopParts(prefix.value, switch.value.0, ending.value.0), ending.value.1));
    }

    // The compiler accepts exactly the supported templates, with the strings their statements compile to.
    method Compile() returns (r: Option<Compiled>)
      ensures r == Expected(tokens, eos)
    {
      hide Join, Texts, ExpectedEnding, ExpectedBody, Expected, Classify, OnlyWords, Assemble, Stops;
      var k := FirstNonText(0);
      if k == |tokens| || !Classify(tokens[k]).ForOpen? {
        NoLoop(tokens, k, eos);
        return None;
      }
      TemplateStep(tokens, k, eos);
      var prefix := AppendTextRange(0, k);
      if prefix.None? {
        return None;
      }
      var opens := ParseWords(tokens[k].text, ["for", "message", "in", "messages"]);
      if !opens {
        return None;
      }
      var body := ReadBody(k + 1);
      if body.None? {
        return None;
      }
      var (parts, index) := body.value;
      if index == |tokens| || !Classify(tokens[index]).EndFor? {
        EndForStops(tokens, index);
        return None;
      }
      EndForStops(tokens, index);
      var closed := ParseWords(tokens[index].text, ["endfor"]);
      if !closed {
        return None;
      }
      var after := ReadEnding(index + 1);
      if after.None? || after.value.1 != |tokens| {
        EndStops(tokens);
        return None;
      }
      EndStops(tokens);
      r := Assemble(prefix.value, parts, after.value.0);
    }

    // The terms of one output: literals around the content, then eos.
    method AppendTerms(start: BranchState, terms: seq<Term>) returns (r: Option<BranchState>)
      ensures r == AddTerms(start, terms, eos)
    {
      var st := start;
      for i := 0 to |terms|
        invariant AddTerms(start, terms, eos) == AddTerms(st, terms[i..], eos)
      {
        assert terms[i..][0] == terms[i] && terms[i..][1..] == terms[i + 1..];
        match terms[i]
        case Literal(text) =>
          st := if st.content then st.(after := st.after + text) else st.(before := st.before + text);
        case Content =>
          if st.content || st.eos {
            return None;
          }
          st := st.(content := true);
        case Eos =>
          if !st.content || st.eos {
            return None;
          }
          st := st.(eos := true, after := st.after + eos);
      }
      r := Some(st);
    }

    method CompileGenerationBranch(begin: nat, end: nat) returns (r: Option<string>)
      requires begin <= end <= |tokens| && NoBlock(tokens, begin, end)
      ensures r == if Simples(tokens, begin, end).None? then None else GenerationFrom(Simples(tokens, begin, end).value, false)
    {
      FoldIsGeneration(tokens, begin, end, false, "");
      if Simples(tokens, begin, end).Some? { PrependEmpty(GenerationFrom(Simples(tokens, begin, end).value, false)); }
      var result, outputSeen := "", false;
      for index := begin to end
        invariant FoldGeneration(tokens, begin, end, false, "") == FoldGeneration(tokens, index, end, outputSeen, result)
      {
        var token := tokens[index];
        if token.kind.TextToken? {
          if !Whitespace(token.text) {
            return None;
          }
          result := result + token.text;
          continue;
        }
        if outputSeen {
          return None;
        }
        outputSeen := true;
        var terms := ParseOutput(token.text);
        if terms.None? {
          return None;
        }
        var text := AppendLiterals(terms.value);
        if text.None? {
          return None;
        }
        result := result + text.value;
      }
      r := if outputSeen then Some(result) else None;
    }

    method AppendLiterals(terms: seq<Term>) returns (r: Option<string>)
      ensures r == Literals(terms)
    {
      var result := "";
      PrependEmpty(Literals(terms));
      assert terms[0..] == terms;
      for i := 0 to |terms|
        invariant Literals(terms) == PrependString(result, Literals(terms[i..]))
      {
        assert terms[i..][0] == terms[i] && terms[i..][1..] == terms[i + 1..];
        if !terms[i].Literal? {
          return None;
        }
        LiteralStep(result, terms[i].text, Literals(terms[i + 1..]));
        result := result + terms[i].text;
      }
      assert result + "" == result;
      r := Some(result);
    }
  }

  lemma EndForStops(ts: seq<Token>, k: nat)
    requires k <= |ts|
    ensures k < |ts| && Classify(ts[k]).EndFor? ==> Stops(ts, k)
    ensures !EndsWith(ts, k, EndFor, "endfor") || (k < |ts| && Classify(ts[k]).EndFor?)
  {
    hide Classify;
  }

  lemma EndStops(ts: seq<Token>)
    ensures Stops(ts, |ts|)
  {
  }

  lemma SwitchAdvances(ts: seq<Token>, k: nat, eos: string)
    requires k < |ts| && ExpectedSwitch(ts, k, map[], eos).Some?
    ensures k < ExpectedSwitch(ts, k, map[], eos).value.1 <= |ts|
  {
    hide CompileSwitch, ParseBranches;
  }

  lemma IfContinues(ts: seq<Token>, k: nat)
    requires k < |ts| && Classify(ts[k]).IfOpen?
    ensures !Stops(ts, k) && ts[k].kind.BlockToken?
  {
  }

  lemma PrependEmpty(b: Option<string>)
    ensures PrependString("", b) == b
  {
    if b.Some? { assert "" + b.value == b.value; }
  }

  lemma JoinStep(a: string, t: string, rest: seq<Stmt>)
    ensures PrependString(a, Join([Text(t)] + rest)) == if Whitespace(t) then PrependString(a + t, Join(rest)) else None
  {
    assert ([Text(t)] + rest)[1..] == rest;
    if Join(rest).Some? { assert a + (t + Join(rest).value) == a + t + Join(rest).value; }
  }

  lemma LiteralStep(a: string, t: string, rest: Option<string>)
    ensures PrependString(a, PrependString(t, rest)) == PrependString(a + t, rest)
  {
    if rest.Some? { assert a + (t + rest.value) == a + t + rest.value; }
  }
}

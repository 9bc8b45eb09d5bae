// Loading a chat template and formatting messages in two passes: one measures and checks, the other
// appends to a string of the measured size.

module ChatFormatter {
  import opened SizeT
  import Utf8
  import opened ChatLexer
  import opened ChatExpression
  import opened ChatTemplate
  import opened ChatCompiler
  import TemplateCompiler

  // Strings of the source hold bytes.
  predicate IsBytes(s: string) {
    forall i :: 0 <= i < |s| ==> s[i] as int < 256
  }

  function Bytes(s: string): seq<Utf8.byte>
    requires IsBytes(s)
  {
    seq(|s|, i requires 0 <= i < |s| => s[i] as int)
  }

  ghost predicate ValidText(s: string)
    requires IsBytes(s)
  {
    Utf8.WellFormed(Bytes(s))
  }

  // The statements of a template source.
  function Statements(source: string): Option<seq<Stmt>> {
    var tokens := LexFrom(source, 0);
    if tokens.None? then None else Parse(Trim(tokens.value))
  }

  // compile_template: exactly the valid sources whose statements are supported are accepted.
  method Load(source: string, eos: string) returns (r: Option<Compiled>)
    requires IsBytes(source)
    ensures r == if !ValidText(source) || 0x0D in Bytes(source) || Statements(source).None? then None
                 else CompileStmts(Statements(source).value, eos)
  {
    hide LexFrom, Trim, Parse, CompileStmts;
    var valid := Utf8.ValidateTemplate(Bytes(source));
    if !valid {
      return None;
    }
    var tokens := TokenizeTemplate(source);
    if tokens.None? {
      return None;
    }
    var compiler := new TemplateCompiler.TemplateCompiler(tokens.value, eos);
    r := compiler.Compile();
  }

  // ---------------------------------------------------------------- formatting

  datatype FormatResult = Formatted(text: string) | BadRole(index: nat) | BadContent(index: nat) | SizeOverflow

  datatype Measured = Measured(size: nat) | UnknownRole(index: nat) | TooLarge

  ghost predicate RolesValidTo(messages: seq<Message>, k: nat)
    requires k <= |messages|
  {
    forall i :: 0 <= i < k ==> RoleOf(messages[i].role).Some?
  }

  // The formatted text of the first k messages.
  ghost function UpTo(c: Compiled, messages: seq<Message>, prompt: bool, k: nat): string
    requires AllRoles(c.affixes) && k <= |messages| && RolesValidTo(messages, k)
  {
    if k == 0 then "" else UpTo(c, messages, prompt, k - 1) + FormatMessage(c, messages[k - 1], prompt && k == |messages|)
  }

  lemma {:induction false} UpToThenFrom(c: Compiled, messages: seq<Message>, prompt: bool, k: nat)
    requires AllRoles(c.affixes) && k <= |messages| && RolesValid(messages)
    ensures UpTo(c, messages, prompt, k) + FormatFrom(c, messages, prompt, k) == FormatFrom(c, messages, prompt, 0)
  {
    hide FormatMessage;
    if k > 0 {
      UpToThenFrom(c, messages, prompt, k - 1);
      var m := FormatMessage(c, messages[k - 1], prompt && k == |messages|);
      assert UpTo(c, messages, prompt, k - 1) + (m + FormatFrom(c, messages, prompt, k))
          == UpTo(c, messages, prompt, k - 1) + m + FormatFrom(c, messages, prompt, k);
    }
  }

  class ChatFormatter {
    const compiled: Compiled
    const maxSize: nat

    constructor (compiled: Compiled, maxSize: nat)
      ensures this.compiled == compiled && this.maxSize == maxSize
    {
      this.compiled, this.maxSize := compiled, maxSize;
    }

    ghost predicate Valid() {
      AllRoles(compiled.affixes)
    }

    // add_size; None stands for the overflow.
    function AddSize(total: nat, size: nat): Option<nat>
      requires total <= maxSize
    {
      if size > maxSize - total then None else Some(total + size)
    }

    // The sizes of one message's pieces.
    method MeasureMessage(start: nat, m: Message, generate: bool) returns (total: Option<nat>)
      requires Valid() && start <= maxSize && RoleOf(m.role).Some?
      ensures total == AddSize(start, |FormatMessage(compiled, m, generate)|)
    {
      var affix := compiled.affixes[RoleOf(m.role).value];
      var t :- AddSize(start, |affix.before|);
      t :- AddSize(t, |m.content|);
      t :- AddSize(t, |affix.after|);
      t :- AddSize(t, |compiled.tail|);
      if compiled.generationInsideLoop && generate {
        t :- AddSize(t, |compiled.generation|);
      }
      total := AddSize(t, |compiled.tailAfterGeneration|);
    }

    // The first pass over a nonempty list: its total is the length of the formatted text.
    method Measure(messages: seq<Message>, prompt: bool) returns (r: Measured)
      requires Valid()
      ensures r.UnknownRole? ==>
        r.index < |messages| && RolesValidTo(messages, r.index) && RoleOf(messages[r.index].role).None?
      ensures r.Measured? ==> RolesValid(messages) && r.size == |FormatAll(compiled, messages, prompt)| <= maxSize
      ensures r.TooLarge? && RolesValid(messages) ==> |FormatAll(compiled, messages, prompt)| > maxSize
    {
      hide FormatMessage;
      if |compiled.prefix| > maxSize {
        return TooLarge;
      }
      var size := |compiled.prefix|;
      for k := 0 to |messages|
        invariant RolesValidTo(messages, k)
        invariant size == |compiled.prefix| + |UpTo(compiled, messages, prompt, k)| <= maxSize
      {
        if RoleOf(messages[k].role).None? {
          return UnknownRole(k);
        }
        var next := MeasureMessage(size, messages[k], prompt && k + 1 == |messages|);
        if next.None? {
          if RolesValid(messages) { UpToThenFrom(compiled, messages, prompt, k + 1); }
          return TooLarge;
        }
        size := next.value;
      }
      assert RolesValid(messages);
      UpToThenFrom(compiled, messages, prompt, |messages|);
      var total := MeasureEnd(size, prompt);
      r := if total.None? then TooLarge else Measured(total.value);
    }

    method MeasureEnd(start: nat, prompt: bool) returns (total: Option<nat>)
      requires start <= maxSize
      ensures total == AddSize(start, |FormatEnd(compiled, prompt)|)
    {
      var t :- AddSize(start, |compiled.postLoop|);
      if prompt && !compiled.generationInsideLoop {
        t :- AddSize(t, |compiled.generation|);
      }
      total := AddSize(t, |compiled.suffix|);
    }

    // The second pass: the pieces of every message appended in order.
    method Append(messages: seq<Message>, prompt: bool) returns (output: string)
      requires Valid() && RolesValid(messages)
      ensures output == FormatAll(compiled, messages, prompt)
    {
      output := compiled.prefix;
      for k := 0 to |messages|
        invariant output == compiled.prefix + UpTo(compiled, messages, prompt, k)
      {
        var m := messages[k];
        var affix := compiled.affixes[RoleOf(m.role).value];
        var generation := if compiled.generationInsideLoop && prompt && k + 1 == |messages| then compiled.generation else "";
        var piece := affix.before + m.content + affix.after + compiled.tail + generation + compiled.tailAfterGeneration;
        assert piece == FormatMessage(compiled, m, prompt && k + 1 == |messages|);
        output := output + piece;
      }
      UpToThenFrom(compiled, messages, prompt, |messages|);
      output := output + (compiled.postLoop + (if prompt && !compiled.generationInsideLoop then compiled.generation else "") + compiled.suffix);
    }

    // Formatting checks roles, then size, then contents; an empty list is the empty string.
    method Format(messages: seq<Message>, prompt: bool) returns (r: FormatResult)
      requires Valid() && forall k :: 0 <= k < |messages| ==> IsBytes(messages[k].content)
      ensures messages == [] ==> r == Formatted("")
      ensures messages != [] && r.Formatted? ==>
        RolesValid(messages) && r.text == FormatAll(compiled, messages, prompt) && |r.text| <= maxSize
        && forall k :: 0 <= k < |messages| ==> ValidText(messages[k].content)
      ensures r.BadRole? ==>
        r.index < |messages| && RolesValidTo(messages, r.index) && RoleOf(messages[r.index].role).None?
      ensures r.SizeOverflow? && RolesValid(messages) ==> |FormatAll(compiled, messages, prompt)| > maxSize
      ensures r.BadContent? ==>
        && RolesValid(messages) && |FormatAll(compiled, messages, prompt)| <= maxSize
        && r.index < |messages| && !ValidText(messages[r.index].content)
        && forall k :: 0 <= k < r.index ==> ValidText(messages[k].content)
    {
      hide ValidText, FormatAll;
      if messages == [] {
        return Formatted("");
      }
      var measured := Measure(messages, prompt);
      if measured.UnknownRole? {
        return BadRole(measured.index);
      }
      if measured.TooLarge? {
        return SizeOverflow;
      }
      for k := 0 to |messages|
        invariant forall i :: 0 <= i < k ==> ValidText(messages[i].content)
      {
        var ok := CheckContent(messages[k].content);
        if !ok {
          return BadContent(k);
        }
      }
      var output := Append(messages, prompt);
      r := Formatted(output);
    }

    method CheckContent(content: string) returns (ok: bool)
      requires IsBytes(content)
      ensures ok <==> ValidText(content)
    {
      ok := Utf8.ValidateContent(Bytes(content));
    }
  }

  // ---------------------------------------------------------------- the whole chain

  // Main result: what format returns for a nonempty list is what the template itself renders.
  lemma FormatRendersTemplate(source: string, eos: string, messages: seq<Message>, prompt: bool)
    requires Statements(source).Some? && CompileStmts(Statements(source).value, eos).Some? && RolesValid(messages)
    ensures AllRoles(CompileStmts(Statements(source).value, eos).value.affixes)
    ensures FormatAll(CompileStmts(Statements(source).value, eos).value, messages, prompt)
         == Render(Statements(source).value, Env(messages, prompt, eos, None, false))
  {
    CompiledRenders(Statements(source).value, messages, prompt, eos);
  }

  // The empty list is formatted by decree: the template renders "" for it only when nothing stands
  // around the loop.
  lemma EmptyListAgrees(ss: seq<Stmt>, prompt: bool, eos: string)
    requires CompileStmts(ss, eos).Some?
    ensures var c := CompileStmts(ss, eos).value;
      Render(ss, Env([], prompt, eos, None, false)) == ""
      <==> c.prefix == "" && c.postLoop == "" && c.suffix == "" && (prompt && !c.generationInsideLoop ==> c.generation == "")
  {
    CompiledRenders(ss, [], prompt, eos);
  }

  // A line break in front of a loop whose branches print the content and the end-of-sequence token.
  function LeadingBreak(): seq<Stmt> {
    [Text("\n"), For([If([PlainBranch(System), PlainBranch(User), PlainBranch(Assistant)])])]
  }

  function PlainBranch(role: Role): Branch {
    Branch(RoleIs(role), [Output([Content, Eos])])
  }

  lemma PlainBranchAffix(role: Role, eos: string)
    ensures PlainBranch(role).condition == RoleIs(role) && RoleAffix(PlainBranch(role).body, eos) == Some(Affix("", eos))
  {
    var ts := [Content, Eos];
    assert ts[1..] == [Eos] && [Eos][1..] == [] && "" + eos == eos;
    var st := EMPTY_BRANCH.(output := true, content := true);
    var done := st.(eos := true, after := eos);
    assert AddTerm(st, Eos, eos) == Some(done);
    assert AddTerms(done, [], eos) == Some(done);
    assert AddTerms(st, [Eos], eos) == Some(done);
    assert AddTerms(EMPTY_BRANCH.(output := true), ts, eos) == AddTerms(st, ts[1..], eos);
    assert AddStmts(EMPTY_BRANCH, [Output(ts)], eos) == AddStmts(done, [], eos);
  }

  // The compiler accepts it; for an empty list the template renders the line break and format returns nothing.
  lemma EmptyListDiffers(prompt: bool, eos: string)
    ensures CompileStmts(LeadingBreak(), eos).Some? && CompileStmts(LeadingBreak(), eos).value.prefix == "\n"
    ensures Render(LeadingBreak(), Env([], prompt, eos, None, false)) != ""
  {
    var a, b, c := PlainBranch(System), PlainBranch(User), PlainBranch(Assistant);
    PlainBranchAffix(System, eos);
    PlainBranchAffix(User, eos);
    PlainBranchAffix(Assistant, eos);
    hide PlainBranch, RoleAffix;
    var affix := Affix("", eos);
    var s1, s2, s3 := map[System := affix], map[System := affix, User := affix], map[System := affix, User := affix, Assistant := affix];
    assert CompileSwitch([], s3, eos) == Some(s3);
    assert [c][1..] == [] && CompileSwitch([c], s2, eos) == Some(s3);
    assert [b, c][1..] == [c] && CompileSwitch([b, c], s1, eos) == Some(s3);
    assert [a, b, c][1..] == [b, c] && CompileSwitch([a, b, c], map[], eos) == Some(s3);
    var body := [If([a, b, c])];
    assert Lead(body) == 0 && body[..0] == [] && body[1..] == [] && CompileEnding([]) == Some(Ending("", None, ""));
    assert CompileBody(body, eos) == Some(LoopParts("", s3, Ending("", None, "")));
    var ss := LeadingBreak();
    assert ss[1..] == [For(body)] && Lead(ss[1..]) == 0 && Lead(ss) == 1 && ss[..1] == [Text("\n")] && ss[2..] == [];
    assert Join(ss[..1]) == Some("\n") by { assert ss[..1][1..] == [] && "\n" + "" == "\n"; }
    EmptyListAgrees(ss, prompt, eos);
  }
}

/** What one dispatcher step promises, construct by construct, and what a
    sequence of steps keeps: stacks only change at their top, a failed line
    changes nothing, statement collections and labels stay distinct, and a
    `break` after a `loop` jumps to that loop's label. */
module FlowProperties {
  import opened Text
  import opened Syntax
  import opened FlowArgument
  import opened LoopFlavors
  import opened FlowStep

  /** The line's first word names construct `c`. */
  predicate Names(g: Grammar, code: string, c: Construct) {
    KeywordOf(Parts(g, code)[0]) == c
  }

  /** Collection `k` was created by this step. */
  predicate FreshSink(s: FlowState, r: StepResult, k: Sink) {
    s.nextSink <= k.id < r.state.nextSink
  }

  /** Label `n` was handed out by this step. */
  predicate FreshId(s: FlowState, r: StepResult, n: nat) {
    s.internalId <= n < r.state.internalId
  }

  /** The line and the rewind flag are left alone. */
  predicate KeepsLine(r: StepResult, code: string) {
    r.code == code && !r.rewind
  }

  // ---------------------------------------------------------------------
  // if / else

  /** The `if` case's own function. */
  lemma IfStepEffect(g: Grammar, h: Helpers, scope: string, s: FlowState, line: CodeLine, code: string,
                     parts: seq<string>)
    requires |parts| <= 2
    requires |parts| == 2 ==> Trim(parts[1], g.spaces) == parts[1]
    ensures var r := IfStep(g, h, scope, s, line, code, parts);
      (|parts| < 2 ==> r == Fail(s, code, IndexOutOfRange)) &&
      (|parts| == 2 ==>
        var p := ParseFlowParameter(g, h, parts[1], true);
        (p.Err? ==> r == Fail(s, code, p.error)) &&
        (p.Ok? && parts[1] == [] ==> r == Fail(s, code, NullArgument)) &&
        (p.Ok? && parts[1] != [] ==>
          r.output.Ok? && r.output.value.Some? && |r.output.value.value| == 1 &&
          var st := r.output.value.value[0];
          st.Condition? && st.test == Invoke(IfElseTest, [p.value.condition]) &&
          FreshSink(s, r, st.trueStatements) && FreshSink(s, r, st.falseStatements) &&
          st.trueStatements != st.falseStatements &&
          r.state.blocks == s.blocks + [Block(line, scope, st.trueStatements, IfElse, TypeOf(p.value.blockOpen))] &&
          r.state.elses == s.elses + [st.falseStatements] &&
          r.state.breakLabels == s.breakLabels && r.state.internalId == s.internalId &&
          KeepsLine(r, code) &&
          (p.value.blockOpen <==>
            var t := parts[1]; t != [] && IsExpression(g, h, t) && t[|t| - 1] == g.blockOpen)))
  {
  }

  /** `if`: one IfElse block on the true branch of the emitted condition and
      the false branch pending for an `else`, both fresh; the block is Within
      exactly when the argument is a full expression ending in BlockOpen. An
      `if` without argument fails on the missing part. */
  lemma IfOpensBlockAndPendingElse(g: Grammar, h: Helpers, scope: string, mainScope: string,
                                   s: FlowState, line: CodeLine, code: string)
    requires Names(g, code, FlowIf)
    ensures var parts := Parts(g, code);
      var r := Step(g, h, scope, mainScope, s, line, code);
      (|parts| == 1 ==> r == Fail(s, code, IndexOutOfRange)) &&
      (|parts| == 2 ==>
        var p := ParseFlowParameter(g, h, parts[1], true);
        (p.Err? ==> r == Fail(s, code, p.error)) &&
        (p.Ok? && parts[1] == [] ==> r == Fail(s, code, NullArgument)) &&
        (p.Ok? && parts[1] != [] ==>
          r.output.Ok? && r.output.value.Some? && |r.output.value.value| == 1 &&
          var st := r.output.value.value[0];
          st.Condition? && st.test == Invoke(IfElseTest, [p.value.condition]) &&
          FreshSink(s, r, st.trueStatements) && FreshSink(s, r, st.falseStatements) &&
          st.trueStatements != st.falseStatements &&
          r.state.blocks == s.blocks + [Block(line, scope, st.trueStatements, IfElse, TypeOf(p.value.blockOpen))] &&
          r.state.elses == s.elses + [st.falseStatements] &&
          r.state.breakLabels == s.breakLabels && r.state.internalId == s.internalId &&
          KeepsLine(r, code) &&
          (p.value.blockOpen <==>
            var t := parts[1]; t != [] && IsExpression(g, h, t) && t[|t| - 1] == g.blockOpen)))
  {
    var parts := Parts(g, code);
    if |parts| == 2 {
      assert Trim(parts[1], g.spaces) == parts[1];
    }
    StepDispatch(g, h, scope, mainScope, s, line, code);
    IfStepEffect(g, h, scope, s, line, code, parts);
  }

  /** What an `else` promises, as a property of the case's own function. */
  predicate ElseEffect(g: Grammar, scope: string, s: FlowState, line: CodeLine, code: string,
                       parts: seq<string>, r: StepResult)
    requires Names(g, code, FlowElse) && parts == Parts(g, code)
  {
    ElseLineIsLongEnough(g, code);
    (|s.elses| == 0 ==> r == Fail(s, code, DanglingElse)) &&
    (|s.elses| > 0 && |parts| == 2 && parts[1] == [] ==> r == Fail(s, code, IndexOutOfRange)) &&
    (|s.elses| > 0 && !(|parts| == 2 && parts[1] == []) ==>
      var popped := s.elses[|s.elses| - 1];
      var blockOpen := |parts| == 2 && parts[1][0] == g.blockOpen;
      r.output == Ok(None) &&
      r.state.elses == s.elses[..|s.elses| - 1] &&
      r.state.breakLabels == s.breakLabels &&
      r.state.internalId == s.internalId && r.state.nextSink == s.nextSink &&
      r.code == AfterElse(g, code) && |r.code| + |KeywordText(FlowElse)| <= |code| &&
      (r.rewind <==> r.code != []) &&
      (if r.rewind && !EqualsIgnoreCase(FirstWord(g, r.code), KeywordText(FlowIf))
       then r.state.blocks == s.blocks + [Block(line, scope, popped, IfElse, TypeOf(blockOpen))]
       else r.state.blocks == s.blocks))
  }

  lemma ElseStepPops(g: Grammar, scope: string, s: FlowState, line: CodeLine, code: string)
    requires Names(g, code, FlowElse)
    requires |s.elses| > 0 && !(|Parts(g, code)| == 2 && Parts(g, code)[1] == [])
    ensures var r := ElseStep(g, scope, s, line, code, Parts(g, code));
      r.output == Ok(None) && r.state.elses == s.elses[..|s.elses| - 1] &&
      r.state.breakLabels == s.breakLabels &&
      r.state.internalId == s.internalId && r.state.nextSink == s.nextSink
  {
  }

  lemma ElseStepRewrites(g: Grammar, scope: string, s: FlowState, line: CodeLine, code: string)
    requires Names(g, code, FlowElse)
    requires |s.elses| > 0 && !(|Parts(g, code)| == 2 && Parts(g, code)[1] == [])
    ensures |TrimStart(code, g.spaces)| >= |KeywordText(FlowElse)|
    ensures var r := ElseStep(g, scope, s, line, code, Parts(g, code));
      r.code == AfterElse(g, code) && (r.rewind <==> r.code != [])
  {
    ElseLineIsLongEnough(g, code);
  }

  lemma ElseStepPushes(g: Grammar, scope: string, s: FlowState, line: CodeLine, code: string)
    requires Names(g, code, FlowElse)
    requires |s.elses| > 0 && !(|Parts(g, code)| == 2 && Parts(g, code)[1] == [])
    ensures var r := ElseStep(g, scope, s, line, code, Parts(g, code));
      var parts := Parts(g, code);
      var blockOpen := |parts| == 2 && parts[1][0] == g.blockOpen;
      if r.rewind && !EqualsIgnoreCase(FirstWord(g, r.code), KeywordText(FlowIf))
      then r.state.blocks == s.blocks + [Block(line, scope, s.elses[|s.elses| - 1], IfElse, TypeOf(blockOpen))]
      else r.state.blocks == s.blocks
  {
  }

  /** A successful `else` step in closed form, for the imperative case. */
  lemma ElseStepSucceeds(g: Grammar, scope: string, s: FlowState, line: CodeLine, code: string, parts: seq<string>)
    requires |s.elses| > 0 && !(|parts| > 1 && |parts[1]| == 0)
    requires |TrimStart(code, g.spaces)| >= |KeywordText(FlowElse)|
    ensures var rest := AfterElse(g, code);
      var block := Block(line, scope, s.elses[|s.elses| - 1], IfElse, TypeOf(|parts| > 1 && parts[1][0] == g.blockOpen));
      var push := rest != [] && !EqualsIgnoreCase(FirstWord(g, rest), KeywordText(FlowIf));
      ElseStep(g, scope, s, line, code, parts) ==
      StepResult(Ok(None),
        s.(elses := s.elses[..|s.elses| - 1], blocks := if push then s.blocks + [block] else s.blocks),
        rest, rest != [])
  {
  }

  lemma {:induction false} ElseStepEffect(g: Grammar, scope: string, s: FlowState, line: CodeLine, code: string)
    requires Names(g, code, FlowElse)
    ensures ElseEffect(g, scope, s, line, code, Parts(g, code), ElseStep(g, scope, s, line, code, Parts(g, code)))
  {
    var parts := Parts(g, code);
    if |s.elses| > 0 && !(|parts| == 2 && parts[1] == []) {
      ElseStepPops(g, scope, s, line, code);
      ElseStepRewrites(g, scope, s, line, code);
      ElseStepPushes(g, scope, s, line, code);
    }
  }

  /** `else`: pops the pending false branch and rewrites the line to the
      text after the keyword (a suffix at least four characters shorter, by
      AfterElse), asking for a rewind when that text is not empty. A block on
      the popped branch is pushed only when the rest of the line is not
      empty and does not start with the word `if`, so a bare `else` never
      opens a block. An `else` without a pending branch is dangling. */
  lemma {:induction false} ElseClosesPendingBranch(g: Grammar, h: Helpers, scope: string, mainScope: string,
                                                   s: FlowState, line: CodeLine, code: string)
    requires Names(g, code, FlowElse)
    ensures ElseEffect(g, scope, s, line, code, Parts(g, code), Step(g, h, scope, mainScope, s, line, code))
  {
    StepDispatch(g, h, scope, mainScope, s, line, code);
    ElseStepEffect(g, scope, s, line, code);
  }

  // ---------------------------------------------------------------------
  // goto / gosub

  /** `gosub` calls the label's method with an empty argument array; `goto`
      does the same and returns at once. Neither touches the state. */
  lemma GotoCallsLabel(g: Grammar, h: Helpers, scope: string, mainScope: string,
                       s: FlowState, line: CodeLine, code: string)
    requires Names(g, code, FlowGoto) || Names(g, code, FlowGosub)
    ensures var parts := Parts(g, code);
      var r := Step(g, h, scope, mainScope, s, line, code);
      (|parts| == 1 ==> r == Fail(s, code, IndexOutOfRange)) &&
      (|parts| == 2 ==>
        var call := ExpressionStatement(Invoke(LocalMethod(parts[1]), [Primitive(EmptyArguments)]));
        r.state == s && KeepsLine(r, code) &&
        r.output == Ok(Some(if Names(g, code, FlowGoto) then [call, Return(None)] else [call])))
  {
    StepDispatch(g, h, scope, mainScope, s, line, code);
    var isGoto := Names(g, code, FlowGoto);
    assert Step(g, h, scope, mainScope, s, line, code) == GotoStep(s, code, Parts(g, code), isGoto);
  }

  // ---------------------------------------------------------------------
  // loop / while

  /** The first word of a `loop` line upper-cases to LOOP, which is no
      flavor keyword: the flavor switch always picks the generic loop. */
  lemma {:induction false} LoopWordIsGeneric(word: string)
    requires Lower(word) == KeywordText(FlowLoop)
    ensures LoopFlavorOf(Upper(word)) == Generic
  {
    assert |word| == 4 && LowerChar(word[0]) == Lower(word)[0] == 'l';
    assert Upper(word)[0] == UpperChar(word[0]) == 'L';
  }

  /** `loop`: a foreach-style iteration over the generic loop capability
      applied to all of the argument text, its body a fresh collection
      under an Expect Loop block, and a fresh break/continue pair pushed and
      the break label placed after the loop. The enumerator and both labels
      are distinct new ids. A bare `loop` fails on the missing part. */
  lemma LoopOpensLoopBlock(g: Grammar, h: Helpers, scope: string, mainScope: string,
                           s: FlowState, line: CodeLine, code: string)
    requires Names(g, code, FlowLoop)
    ensures var parts := Parts(g, code);
      var r := Step(g, h, scope, mainScope, s, line, code);
      (|parts| == 1 ==> r == Fail(s, code, IndexOutOfRange)) &&
      (|parts| == 2 ==>
        r.output.Ok? && r.output.value.Some? && |r.output.value.value| == 2 &&
        |r.state.breakLabels| == |s.breakLabels| + 1 &&
        var loop := r.output.value.value[0];
        var labels := r.state.breakLabels[|s.breakLabels|];
        loop.Iteration? && loop.init.DeclareEnumerable? &&
        loop.init.initExpression == GetEnumerator(Invoke(LoopOf(Generic), CommandParameters(h, parts[1]))) &&
        loop.test == MoveNext(loop.init.name) && loop.increment == Some(Comment("")) &&
        r.output.value.value[1] == Labeled(labels.breakLabel) &&
        r.state.breakLabels == s.breakLabels + [labels] &&
        FreshId(s, r, loop.init.name) && FreshId(s, r, labels.breakLabel) && FreshId(s, r, labels.continueLabel) &&
        loop.init.name != labels.breakLabel && loop.init.name != labels.continueLabel &&
        labels.breakLabel < labels.continueLabel &&
        FreshSink(s, r, loop.body) &&
        r.state.blocks == s.blocks + [Block(line, scope, loop.body, Loop, Expect)] &&
        r.state.elses == s.elses && KeepsLine(r, code))
  {
    StepDispatch(g, h, scope, mainScope, s, line, code);
    assert Step(g, h, scope, mainScope, s, line, code) == LoopStep(g, h, scope, s, line, code, Parts(g, code));
    LoopWordIsGeneric(Parts(g, code)[0]);
  }

  /** `while`: an iteration testing the flow parameter (true when there is
      no argument), its body a fresh collection under a Loop block that is
      Within exactly when the parameter ended in BlockOpen, and a fresh
      break/continue pair pushed, the break label placed after the loop. */
  lemma WhileOpensLoopBlock(g: Grammar, h: Helpers, scope: string, mainScope: string,
                            s: FlowState, line: CodeLine, code: string)
    requires Names(g, code, FlowWhile)
    ensures var parts := Parts(g, code);
      var r := Step(g, h, scope, mainScope, s, line, code);
      var p := if |parts| == 2 then ParseFlowParameter(g, h, parts[1], true)
               else Ok(FlowParameter(Primitive(BoolValue(true)), false));
      (p.Err? ==> r == Fail(s, code, p.error)) &&
      (p.Ok? ==>
        r.output.Ok? && r.output.value.Some? && |r.output.value.value| == 2 &&
        |r.state.breakLabels| == |s.breakLabels| + 1 &&
        var loop := r.output.value.value[0];
        var labels := r.state.breakLabels[|s.breakLabels|];
        loop == Iteration(Comment(""), None, p.value.condition, loop.body) &&
        r.output.value.value[1] == Labeled(labels.breakLabel) &&
        r.state.breakLabels == s.breakLabels + [labels] &&
        FreshId(s, r, labels.breakLabel) && FreshId(s, r, labels.continueLabel) &&
        labels.breakLabel < labels.continueLabel &&
        FreshSink(s, r, loop.body) &&
        r.state.blocks == s.blocks + [Block(line, scope, loop.body, Loop, TypeOf(p.value.blockOpen))] &&
        r.state.elses == s.elses && KeepsLine(r, code))
  {
    StepDispatch(g, h, scope, mainScope, s, line, code);
    assert Step(g, h, scope, mainScope, s, line, code) == WhileStep(g, h, scope, s, line, code, Parts(g, code));
  }

  // ---------------------------------------------------------------------
  // break / continue / return

  /** `break` and `continue` jump to the innermost loop's break or continue
      label; they take no argument and fail outside a loop. */
  lemma BreakJumpsToInnermostLoop(g: Grammar, h: Helpers, scope: string, mainScope: string,
                                  s: FlowState, line: CodeLine, code: string)
    requires Names(g, code, FlowBreak) || Names(g, code, FlowContinue)
    ensures var parts := Parts(g, code);
      var r := Step(g, h, scope, mainScope, s, line, code);
      var isContinue := Names(g, code, FlowContinue);
      (|parts| == 2 ==> r == Fail(s, code, ArgumentNotRequired)) &&
      (|parts| == 1 && |s.breakLabels| == 0 ==>
        r == Fail(s, code, if isContinue then ContinueOutsideLoop else BreakOutsideLoop)) &&
      (|parts| == 1 && |s.breakLabels| > 0 ==>
        var top := s.breakLabels[|s.breakLabels| - 1];
        r.state == s && KeepsLine(r, code) &&
        r.output == Ok(Some([Goto(if isContinue then top.continueLabel else top.breakLabel)])))
  {
    StepDispatch(g, h, scope, mainScope, s, line, code);
    var isContinue := Names(g, code, FlowContinue);
    assert Step(g, h, scope, mainScope, s, line, code) == BreakStep(s, code, Parts(g, code), isContinue);
  }

  /** `return` in the entry point takes no value; elsewhere it returns the
      parsed argument, or null without one. */
  lemma ReturnLeavesMethod(g: Grammar, h: Helpers, scope: string, mainScope: string,
                           s: FlowState, line: CodeLine, code: string)
    requires Names(g, code, FlowReturn)
    ensures var parts := Parts(g, code);
      var r := Step(g, h, scope, mainScope, s, line, code);
      (scope == mainScope && |parts| == 2 ==> r == Fail(s, code, EntryPointReturnValue)) &&
      (scope == mainScope && |parts| == 1 ==> r.output == Ok(Some([Return(None)]))) &&
      (scope != mainScope ==>
        r.output == Ok(Some([Return(Some(if |parts| == 2 then SingleExpression(parts[1]) else Primitive(NullValue)))]))) &&
      (r.output.Ok? ==> r.state == s && KeepsLine(r, code))
  {
    StepDispatch(g, h, scope, mainScope, s, line, code);
    assert Step(g, h, scope, mainScope, s, line, code) == ReturnStep(s, code, Parts(g, code), scope == mainScope);
  }

  /** Any other first word is not a flow statement. */
  lemma OtherWordIsUnexpected(g: Grammar, h: Helpers, scope: string, mainScope: string,
                              s: FlowState, line: CodeLine, code: string)
    requires Names(g, code, Other)
    ensures Step(g, h, scope, mainScope, s, line, code) == Fail(s, code, Unexpected)
  {
  }

  // ---------------------------------------------------------------------
  // Whole-step properties

  /** Step evaluates the case its first word names. */
  lemma StepDispatch(g: Grammar, h: Helpers, scope: string, mainScope: string,
                     s: FlowState, line: CodeLine, code: string)
    ensures var parts := Parts(g, code);
      var r := Step(g, h, scope, mainScope, s, line, code);
      match KeywordOf(parts[0])
      case FlowIf => r == IfStep(g, h, scope, s, line, code, parts)
      case FlowElse => r == ElseStep(g, scope, s, line, code, parts)
      case FlowGosub => r == GotoStep(s, code, parts, false)
      case FlowGoto => r == GotoStep(s, code, parts, true)
      case FlowLoop => r == LoopStep(g, h, scope, s, line, code, parts)
      case FlowWhile => r == WhileStep(g, h, scope, s, line, code, parts)
      case FlowBreak => r == BreakStep(s, code, parts, false)
      case FlowContinue => r == BreakStep(s, code, parts, true)
      case FlowReturn => r == ReturnStep(s, code, parts, scope == mainScope)
      case Other => r == Fail(s, code, Unexpected)
  {
  }

  /** What every step keeps: a failure throws before anything is pushed or
      popped and leaves the line alone; otherwise at most one block and one
      label pair are pushed and none popped, the pending elses gain one,
      lose their top or stay, and the counters never go back. */
  predicate Disciplined(s: FlowState, code: string, r: StepResult) {
    (r.output.Err? ==> r.state == s && KeepsLine(r, code)) &&
    |s.blocks| <= |r.state.blocks| <= |s.blocks| + 1 && r.state.blocks[..|s.blocks|] == s.blocks &&
    |s.breakLabels| <= |r.state.breakLabels| <= |s.breakLabels| + 1 &&
    r.state.breakLabels[..|s.breakLabels|] == s.breakLabels &&
    (r.state.elses == s.elses ||
     (|r.state.elses| == |s.elses| + 1 && r.state.elses[..|s.elses|] == s.elses) ||
     (|s.elses| > 0 && r.state.elses == s.elses[..|s.elses| - 1])) &&
    s.internalId <= r.state.internalId && s.nextSink <= r.state.nextSink
  }

  lemma PushIsDisciplined<T>(xs: seq<T>, x: T)
    ensures (xs + [x])[..|xs|] == xs && xs[..|xs|] == xs
  {
  }

  lemma {:induction false} ElseStepDisciplined(g: Grammar, scope: string, s: FlowState, line: CodeLine, code: string)
    requires Names(g, code, FlowElse)
    ensures Disciplined(s, code, ElseStep(g, scope, s, line, code, Parts(g, code)))
  {
    PushIsDisciplined(s.blocks, Block(line, scope, if |s.elses| > 0 then s.elses[|s.elses| - 1] else Sink(0), IfElse, Expect));
    PushIsDisciplined(s.blocks, Block(line, scope, if |s.elses| > 0 then s.elses[|s.elses| - 1] else Sink(0), IfElse, Within));
    PushIsDisciplined(s.breakLabels, BreakLabels(0, 0));
  }

  lemma {:induction false} IfStepDisciplined(g: Grammar, h: Helpers, scope: string, s: FlowState,
                                             line: CodeLine, code: string, parts: seq<string>)
    ensures Disciplined(s, code, IfStep(g, h, scope, s, line, code, parts))
    ensures KeepsLine(IfStep(g, h, scope, s, line, code, parts), code)
  {
    var r := IfStep(g, h, scope, s, line, code, parts);
    PushIsDisciplined(s.breakLabels, BreakLabels(0, 0));
    if r.output.Ok? {
      PushIsDisciplined(s.blocks, r.state.blocks[|s.blocks|]);
      PushIsDisciplined(s.elses, r.state.elses[|s.elses|]);
    } else {
      PushIsDisciplined(s.blocks, Block(line, scope, Sink(0), IfElse, Expect));
      PushIsDisciplined(s.elses, Sink(0));
    }
  }

  lemma {:induction false} LoopStepDisciplined(g: Grammar, h: Helpers, scope: string, s: FlowState,
                                               line: CodeLine, code: string, parts: seq<string>)
    ensures Disciplined(s, code, LoopStep(g, h, scope, s, line, code, parts))
    ensures KeepsLine(LoopStep(g, h, scope, s, line, code, parts), code)
  {
    var r := LoopStep(g, h, scope, s, line, code, parts);
    PushIsDisciplined(s.elses, Sink(0));
    if r.output.Ok? {
      PushIsDisciplined(s.blocks, r.state.blocks[|s.blocks|]);
      PushIsDisciplined(s.breakLabels, r.state.breakLabels[|s.breakLabels|]);
    } else {
      PushIsDisciplined(s.blocks, Block(line, scope, Sink(0), IfElse, Expect));
      PushIsDisciplined(s.breakLabels, BreakLabels(0, 0));
    }
  }

  lemma {:induction false} WhileStepDisciplined(g: Grammar, h: Helpers, scope: string, s: FlowState,
                                                line: CodeLine, code: string, parts: seq<string>)
    ensures Disciplined(s, code, WhileStep(g, h, scope, s, line, code, parts))
    ensures KeepsLine(WhileStep(g, h, scope, s, line, code, parts), code)
  {
    var r := WhileStep(g, h, scope, s, line, code, parts);
    PushIsDisciplined(s.elses, Sink(0));
    if r.output.Ok? {
      PushIsDisciplined(s.blocks, r.state.blocks[|s.blocks|]);
      PushIsDisciplined(s.breakLabels, r.state.breakLabels[|s.breakLabels|]);
    } else {
      PushIsDisciplined(s.blocks, Block(line, scope, Sink(0), IfElse, Expect));
      PushIsDisciplined(s.breakLabels, BreakLabels(0, 0));
    }
  }

  /** Every step is disciplined. */
  lemma {:induction false} StepIsDisciplined(g: Grammar, h: Helpers, scope: string, mainScope: string,
                                             s: FlowState, line: CodeLine, code: string)
    ensures Disciplined(s, code, Step(g, h, scope, mainScope, s, line, code))
  {
    StepDispatch(g, h, scope, mainScope, s, line, code);
    PushIsDisciplined(s.blocks, Block(line, scope, Sink(0), IfElse, Expect));
    PushIsDisciplined(s.breakLabels, BreakLabels(0, 0));
    PushIsDisciplined(s.elses, Sink(0));
    match KeywordOf(Parts(g, code)[0])
    case FlowElse => ElseStepDisciplined(g, scope, s, line, code);
    case FlowIf => IfStepDisciplined(g, h, scope, s, line, code, Parts(g, code));
    case FlowLoop => LoopStepDisciplined(g, h, scope, s, line, code, Parts(g, code));
    case FlowWhile => WhileStepDisciplined(g, h, scope, s, line, code, Parts(g, code));
    case _ =>
  }

  /** Only `else` rewrites the line or rewinds, and a rewind always hands
      back a strictly shorter line, so a chain of rewinds ends. */
  lemma {:induction false} RewindShortensLine(g: Grammar, h: Helpers, scope: string, mainScope: string,
                                              s: FlowState, line: CodeLine, code: string)
    ensures var r := Step(g, h, scope, mainScope, s, line, code);
      (r.rewind || r.code != code ==> Names(g, code, FlowElse)) &&
      (r.rewind ==> |r.code| < |code|)
  {
    StepDispatch(g, h, scope, mainScope, s, line, code);
    var parts := Parts(g, code);
    match KeywordOf(parts[0])
    case FlowElse => ElseStepEffect(g, scope, s, line, code);
    case FlowIf => IfStepDisciplined(g, h, scope, s, line, code, parts);
    case FlowLoop => LoopStepDisciplined(g, h, scope, s, line, code, parts);
    case FlowWhile => WhileStepDisciplined(g, h, scope, s, line, code, parts);
    case _ =>
  }

  // ---------------------------------------------------------------------
  // The invariant

  /** Pushing a block on a fresh collection and another fresh collection
      as pending else keeps the invariant. */
  lemma PushBranchWellFormed(s: FlowState, r: FlowState, b: Block, f: Sink)
    requires WellFormed(s)
    requires b.sink == Sink(s.nextSink) && f == Sink(s.nextSink + 1)
    requires r.blocks == s.blocks + [b] && r.elses == s.elses + [f] && r.breakLabels == s.breakLabels
    requires r.internalId == s.internalId && r.nextSink == s.nextSink + 2
    ensures WellFormed(r)
  {
    assert forall i :: 0 <= i < |s.blocks| ==> r.blocks[i] == s.blocks[i];
    assert forall i :: 0 <= i < |s.elses| ==> r.elses[i] == s.elses[i];
  }

  /** Popping the top pending else, and perhaps pushing a block on it,
      keeps the invariant. */
  lemma PopElseWellFormed(s: FlowState, r: FlowState, push: bool, b: Block)
    requires WellFormed(s) && |s.elses| > 0
    requires b.sink == s.elses[|s.elses| - 1]
    requires r.elses == s.elses[..|s.elses| - 1] && r.blocks == (if push then s.blocks + [b] else s.blocks)
    requires r.breakLabels == s.breakLabels && r.internalId == s.internalId && r.nextSink == s.nextSink
    ensures WellFormed(r)
  {
    assert forall i :: 0 <= i < |r.elses| ==> r.elses[i] == s.elses[i];
    if push {
      assert forall i :: 0 <= i < |s.blocks| ==> r.blocks[i] == s.blocks[i];
      assert r.blocks[|s.blocks|] == b;
      assert forall j :: 0 <= j < |r.elses| ==> r.elses[j] != b.sink;
      assert forall i :: 0 <= i < |s.blocks| ==> s.blocks[i].sink != b.sink;
    }
  }

  /** Pushing a loop block on a fresh collection and a label pair taken from
      the next ids keeps the invariant. */
  lemma PushLoopWellFormed(s: FlowState, r: FlowState, b: Block, labels: BreakLabels)
    requires WellFormed(s)
    requires b.sink == Sink(s.nextSink)
    requires s.internalId <= labels.breakLabel < labels.continueLabel < r.internalId
    requires r.blocks == s.blocks + [b] && r.elses == s.elses && r.breakLabels == s.breakLabels + [labels]
    requires r.nextSink == s.nextSink + 1
    ensures WellFormed(r)
  {
    assert forall i :: 0 <= i < |s.blocks| ==> r.blocks[i] == s.blocks[i];
    assert forall i :: 0 <= i < |s.breakLabels| ==> r.breakLabels[i] == s.breakLabels[i];
  }

  lemma {:induction false} IfStepWellFormed(g: Grammar, h: Helpers, scope: string, s: FlowState,
                                            line: CodeLine, code: string, parts: seq<string>)
    requires WellFormed(s)
    ensures WellFormed(IfStep(g, h, scope, s, line, code, parts).state)
  {
    var r := IfStep(g, h, scope, s, line, code, parts);
    if r.output.Ok? {
      PushBranchWellFormed(s, r.state, r.state.blocks[|s.blocks|], r.state.elses[|s.elses|]);
    }
  }

  lemma {:induction false} ElseStepWellFormed(g: Grammar, scope: string, s: FlowState, line: CodeLine, code: string)
    requires Names(g, code, FlowElse)
    requires WellFormed(s)
    ensures WellFormed(ElseStep(g, scope, s, line, code, Parts(g, code)).state)
  {
    var parts := Parts(g, code);
    if |s.elses| > 0 && !(|parts| == 2 && parts[1] == []) {
      var r := ElseStep(g, scope, s, line, code, parts);
      ElseStepPops(g, scope, s, line, code);
      ElseStepPushes(g, scope, s, line, code);
      var blockOpen := |parts| == 2 && parts[1][0] == g.blockOpen;
      var push := r.rewind && !EqualsIgnoreCase(FirstWord(g, r.code), KeywordText(FlowIf));
      PopElseWellFormed(s, r.state, push, Block(line, scope, s.elses[|s.elses| - 1], IfElse, TypeOf(blockOpen)));
    }
  }

  lemma {:induction false} LoopStepWellFormed(g: Grammar, h: Helpers, scope: string, s: FlowState,
                                              line: CodeLine, code: string, parts: seq<string>)
    requires WellFormed(s)
    ensures WellFormed(LoopStep(g, h, scope, s, line, code, parts).state)
  {
    var r := LoopStep(g, h, scope, s, line, code, parts);
    if r.output.Ok? {
      PushLoopWellFormed(s, r.state, r.state.blocks[|s.blocks|], r.state.breakLabels[|s.breakLabels|]);
    }
  }

  lemma {:induction false} WhileStepWellFormed(g: Grammar, h: Helpers, scope: string, s: FlowState,
                                               line: CodeLine, code: string, parts: seq<string>)
    requires WellFormed(s)
    ensures WellFormed(WhileStep(g, h, scope, s, line, code, parts).state)
  {
    var r := WhileStep(g, h, scope, s, line, code, parts);
    if r.output.Ok? {
      PushLoopWellFormed(s, r.state, r.state.blocks[|s.blocks|], r.state.breakLabels[|s.breakLabels|]);
    }
  }

  /** Every step keeps the invariant: open blocks and pending elses never
      share a statement collection, and loop labels stay ordered. */
  lemma {:induction false} StepPreservesWellFormed(g: Grammar, h: Helpers, scope: string, mainScope: string,
                                                   s: FlowState, line: CodeLine, code: string)
    requires WellFormed(s)
    ensures WellFormed(Step(g, h, scope, mainScope, s, line, code).state)
  {
    StepDispatch(g, h, scope, mainScope, s, line, code);
    var parts := Parts(g, code);
    match KeywordOf(parts[0])
    case FlowIf => IfStepWellFormed(g, h, scope, s, line, code, parts);
    case FlowElse => ElseStepWellFormed(g, scope, s, line, code);
    case FlowLoop => LoopStepWellFormed(g, h, scope, s, line, code, parts);
    case FlowWhile => WhileStepWellFormed(g, h, scope, s, line, code, parts);
    case _ =>
  }

  /** In a well-formed state no two loops share a label, and no loop uses
      one label for both break and continue. */
  lemma {:induction false} LabelsAreDistinct(s: FlowState, i: nat, j: nat)
    requires WellFormed(s)
    requires i < |s.breakLabels| && j < |s.breakLabels|
    ensures s.breakLabels[i].breakLabel != s.breakLabels[i].continueLabel
    ensures i != j ==>
      var a := s.breakLabels[i];
      var b := s.breakLabels[j];
      a.breakLabel != b.breakLabel && a.breakLabel != b.continueLabel &&
      a.continueLabel != b.breakLabel && a.continueLabel != b.continueLabel
  {
    if i < j {
      assert s.breakLabels[i].continueLabel < s.breakLabels[j].breakLabel;
    } else if j < i {
      assert s.breakLabels[j].continueLabel < s.breakLabels[i].breakLabel;
    }
  }

  // ---------------------------------------------------------------------
  // Across lines

  /** A `break` or `continue` right after a `loop` jumps to the labels that
      loop pushed: the break target is the label placed after the loop. */
  lemma {:induction false} BreakAfterLoopLeavesThatLoop(g: Grammar, h: Helpers, scope: string, mainScope: string,
                                                        s: FlowState, line: CodeLine, code: string,
                                                        line2: CodeLine, code2: string)
    requires Names(g, code, FlowLoop) && |Parts(g, code)| == 2
    requires (Names(g, code2, FlowBreak) || Names(g, code2, FlowContinue)) && |Parts(g, code2)| == 1
    ensures var r := Step(g, h, scope, mainScope, s, line, code);
      var r2 := Step(g, h, scope, mainScope, r.state, line2, code2);
      r.output.Ok? && r.output.value.Some? && |r.output.value.value| == 2 &&
      r.output.value.value[1].Labeled? && r2.output.Ok? && r2.output.value.Some? &&
      |r.state.breakLabels| > 0 &&
      var top := r.state.breakLabels[|r.state.breakLabels| - 1];
      (Names(g, code2, FlowBreak) ==>
        r2.output.value.value == [Goto(r.output.value.value[1].target)]) &&
      (Names(g, code2, FlowContinue) ==>
        r2.output.value.value == [Goto(top.continueLabel)] && top.continueLabel != top.breakLabel)
  {
    LoopOpensLoopBlock(g, h, scope, mainScope, s, line, code);
    var r := Step(g, h, scope, mainScope, s, line, code);
    BreakJumpsToInnermostLoop(g, h, scope, mainScope, r.state, line2, code2);
  }

  lemma {:induction false} IndexOfAnyAt(s: string, cs: set<char>, k: nat)
    requires k <= |s| && (k == |s| || s[k] in cs)
    requires forall i :: 0 <= i < k ==> s[i] !in cs
    ensures IndexOfAny(s, cs) == k
  {
    if k > 0 {
      IndexOfAnyAt(s[1..], cs, k - 1);
    }
  }

  /** The lines of an `else if` chain: `else`, one space, `if`, a separator
      and the condition. */
  function ElseIfLine(space: char, separator: char, condition: string): string {
    "else" + [space] + "if" + [separator] + condition
  }

  /** The letters of `else` and `if` are no delimiters. */
  predicate KeywordLetters(g: Grammar) {
    'e' !in Delimiters(g) && 'l' !in Delimiters(g) && 's' !in Delimiters(g) &&
    'i' !in Delimiters(g) && 'f' !in Delimiters(g)
  }

  /** A line whose first word ends at a delimiter at index k. */
  lemma PartsAt(g: Grammar, code: string, k: nat)
    requires code != [] && code[0] !in g.spaces
    requires k < |code| && code[k] in Delimiters(g)
    requires forall i :: 0 <= i < k ==> code[i] !in Delimiters(g)
    ensures Parts(g, code) == [code[..k], Trim(code[k + 1..], g.spaces)]
  {
    assert TrimStart(code, g.spaces) == code;
    IndexOfAnyAt(code, Delimiters(g), k);
  }

  lemma TrimOfUntrimmedStart(s: string, cs: set<char>)
    requires s != [] && s[0] !in cs
    ensures Trim(s, cs) != []
  {
    assert TrimStart(s, cs) == s;
  }

  lemma ElseIfLineHead(g: Grammar, space: char, separator: char, condition: string)
    requires space in g.spaces && separator in Delimiters(g) && KeywordLetters(g)
    ensures var code := ElseIfLine(space, separator, condition);
      code != [] && code[0] !in g.spaces && code[4] in Delimiters(g) &&
      (forall i :: 0 <= i < 4 ==> code[i] !in Delimiters(g)) &&
      code[..4] == KeywordText(FlowElse) && code[5..] == "if" + [separator] + condition &&
      code[4..] == [space] + code[5..]
  {
  }

  lemma ElseIfLineSplits(g: Grammar, space: char, separator: char, condition: string)
    requires space in g.spaces && separator in Delimiters(g) && KeywordLetters(g)
    ensures var code := ElseIfLine(space, separator, condition);
      Names(g, code, FlowElse) && |Parts(g, code)| == 2 && Parts(g, code)[1] != []
  {
    var code := ElseIfLine(space, separator, condition);
    ElseIfLineHead(g, space, separator, condition);
    PartsAt(g, code, 4);
    KeywordRoundTrip(FlowElse);
    TrimOfUntrimmedStart(code[5..], g.spaces);
  }

  lemma ElseIfLineRest(g: Grammar, space: char, separator: char, condition: string)
    requires space in g.spaces && separator in Delimiters(g) && KeywordLetters(g)
    ensures var code := ElseIfLine(space, separator, condition);
      |TrimStart(code, g.spaces)| >= |KeywordText(FlowElse)| &&
      AfterElse(g, code) == "if" + [separator] + condition
  {
    var code := ElseIfLine(space, separator, condition);
    ElseIfLineHead(g, space, separator, condition);
    assert TrimStart(code, g.spaces) == code;
    var rest := code[5..];
    assert TrimStart(rest, g.spaces) == rest;
    assert TrimStart([space] + rest, g.spaces) == TrimStart(rest, g.spaces);
  }

  lemma RewoundIfHead(g: Grammar, separator: char, condition: string)
    requires separator in Delimiters(g) && KeywordLetters(g)
    ensures var rest := "if" + [separator] + condition;
      rest[0] !in g.spaces && rest[2] in Delimiters(g) &&
      (forall i :: 0 <= i < 2 ==> rest[i] !in Delimiters(g)) &&
      rest[..2] == KeywordText(FlowIf)
  {
  }

  lemma {:induction false} RewoundIfSplits(g: Grammar, separator: char, condition: string)
    requires separator in Delimiters(g) && KeywordLetters(g)
    ensures var rest := "if" + [separator] + condition;
      Names(g, rest, FlowIf) && |Parts(g, rest)| == 2 &&
      (EqualsIgnoreCase(FirstWord(g, rest), KeywordText(FlowIf)) <==> separator in g.spaces)
  {
    var rest := "if" + [separator] + condition;
    RewoundIfHead(g, separator, condition);
    PartsAt(g, rest, 2);
    KeywordRoundTrip(FlowIf);
    if separator in g.spaces {
      IndexOfAnyAt(rest, g.spaces, 2);
      assert FirstWord(g, rest) == rest[..2];
    } else {
      assert |FirstWord(g, rest)| >= 3;
      assert |Lower(FirstWord(g, rest))| != |Lower(KeywordText(FlowIf))|;
    }
  }

  /** The first step of an `else if` line: the else pops its branch and
      rewinds to the `if` text, which the next step reads as an `if` with an
      argument. The else pushes no block of its own exactly when a space
      separates `if` from the condition. */
  lemma {:induction false} ElseIfRewindsToIf(g: Grammar, h: Helpers, scope: string, mainScope: string,
                                             s: FlowState, line: CodeLine,
                                             space: char, separator: char, condition: string)
    requires space in g.spaces && separator in Delimiters(g)
    requires KeywordLetters(g)
    requires |s.elses| > 0
    ensures var code := ElseIfLine(space, separator, condition);
      var r := Step(g, h, scope, mainScope, s, line, code);
      Names(g, code, FlowElse) &&
      r.output == Ok(None) && r.rewind && r.code == "if" + [separator] + condition &&
      r.state.elses == s.elses[..|s.elses| - 1] &&
      Names(g, r.code, FlowIf) && |Parts(g, r.code)| == 2 &&
      (separator in g.spaces ==> r.state.blocks == s.blocks) &&
      (separator !in g.spaces ==> |r.state.blocks| == |s.blocks| + 1)
  {
    var code := ElseIfLine(space, separator, condition);
    ElseIfLineSplits(g, space, separator, condition);
    ElseIfLineRest(g, space, separator, condition);
    RewoundIfSplits(g, separator, condition);
    ElseClosesPendingBranch(g, h, scope, mainScope, s, line, code);
  }

  /** An `else if` chain nests one block deeper when a space follows the
      `if`, as the dispatcher intends; when ParenOpen follows it instead,
      the else pushes a block of its own as well, one level more. */
  lemma {:induction false} ElseIfChainDepth(g: Grammar, h: Helpers, scope: string, mainScope: string,
                                            s: FlowState, line: CodeLine,
                                            space: char, separator: char, condition: string)
    requires space in g.spaces && separator in Delimiters(g)
    requires KeywordLetters(g)
    requires |s.elses| > 0
    ensures var r := Step(g, h, scope, mainScope, s, line, ElseIfLine(space, separator, condition));
      var r2 := Step(g, h, scope, mainScope, r.state, line, r.code);
      r2.output.Ok? ==>
        |r2.state.elses| == |s.elses| &&
        |r2.state.blocks| == |s.blocks| + (if separator in g.spaces then 1 else 2)
  {
    ElseIfRewindsToIf(g, h, scope, mainScope, s, line, space, separator, condition);
    var r := Step(g, h, scope, mainScope, s, line, ElseIfLine(space, separator, condition));
    IfOpensBlockAndPendingElse(g, h, scope, mainScope, r.state, line, r.code);
  }

  lemma BareElseIfHead(g: Grammar, space: char)
    requires space in g.spaces && KeywordLetters(g)
    ensures var code := "else" + [space] + "if";
      code != [] && code[0] !in g.spaces && code[4] in Delimiters(g) &&
      (forall i :: 0 <= i < 4 ==> code[i] !in Delimiters(g)) &&
      code[..4] == KeywordText(FlowElse) && code[5..] == KeywordText(FlowIf) &&
      code[4..] == [space] + code[5..]
  {
  }

  lemma BareElseIfSplits(g: Grammar, space: char)
    requires space in g.spaces && KeywordLetters(g)
    ensures var code := "else" + [space] + "if";
      Names(g, code, FlowElse) && |Parts(g, code)| == 2 && Parts(g, code)[1] != []
  {
    var code := "else" + [space] + "if";
    BareElseIfHead(g, space);
    PartsAt(g, code, 4);
    KeywordRoundTrip(FlowElse);
    TrimOfUntrimmedStart(code[5..], g.spaces);
  }

  lemma BareElseIfRest(g: Grammar, space: char)
    requires space in g.spaces && KeywordLetters(g)
    ensures var code := "else" + [space] + "if";
      |TrimStart(code, g.spaces)| >= |KeywordText(FlowElse)| && AfterElse(g, code) == KeywordText(FlowIf)
  {
    var code := "else" + [space] + "if";
    BareElseIfHead(g, space);
    assert TrimStart(code, g.spaces) == code;
    var rest := code[5..];
    assert TrimStart(rest, g.spaces) == rest;
    assert TrimStart([space] + rest, g.spaces) == TrimStart(rest, g.spaces);
  }

  lemma BareIfSplits(g: Grammar)
    requires KeywordLetters(g)
    ensures var code := KeywordText(FlowIf);
      Names(g, code, FlowIf) && |Parts(g, code)| == 1 &&
      EqualsIgnoreCase(FirstWord(g, code), KeywordText(FlowIf))
  {
    var code := KeywordText(FlowIf);
    assert TrimStart(code, g.spaces) == code;
    IndexOfAnyAt(code, Delimiters(g), 2);
    KeywordRoundTrip(FlowIf);
    assert |FirstWord(g, code)| == 2;
  }

  /** A bare `else if`: the rest of the line is the single word `if`, so the
      else pushes no block; the rewound `if` then has no argument and fails
      on the missing part, after the pending branch has been popped. */
  lemma {:induction false} ElseBareIfFails(g: Grammar, h: Helpers, scope: string, mainScope: string,
                                           s: FlowState, line: CodeLine, space: char)
    requires space in g.spaces && KeywordLetters(g)
    requires |s.elses| > 0
    ensures var r := Step(g, h, scope, mainScope, s, line, "else" + [space] + "if");
      r.output == Ok(None) && r.rewind && r.code == "if" &&
      r.state.elses == s.elses[..|s.elses| - 1] && r.state.blocks == s.blocks &&
      Step(g, h, scope, mainScope, r.state, line, r.code) == Fail(r.state, "if", IndexOutOfRange)
  {
    var code := "else" + [space] + "if";
    BareElseIfSplits(g, space);
    BareElseIfRest(g, space);
    BareIfSplits(g);
    ElseClosesPendingBranch(g, h, scope, mainScope, s, line, code);
    var r := Step(g, h, scope, mainScope, s, line, code);
    IfOpensBlockAndPendingElse(g, h, scope, mainScope, r.state, line, r.code);
  }

  /** An `if` followed by a delimiter and nothing else (`if,`, `if(`) has an
      empty argument: its null condition is refused and nothing is pushed. */
  lemma {:induction false} IfWithEmptyArgumentFails(g: Grammar, h: Helpers, scope: string, mainScope: string,
                                                    s: FlowState, line: CodeLine, separator: char)
    requires separator in Delimiters(g) && KeywordLetters(g)
    ensures var code := KeywordText(FlowIf) + [separator];
      Step(g, h, scope, mainScope, s, line, code) == Fail(s, code, NullArgument)
  {
    var code := KeywordText(FlowIf) + [separator];
    RewoundIfSplits(g, separator, []);
    assert code == "if" + [separator] + [];
    assert Parts(g, code)[1] == [];
    IfOpensBlockAndPendingElse(g, h, scope, mainScope, s, line, code);
  }
}

/** The parser object's flow-related state and its ParseFlow method, which
    reads one line, returns the statements for it, pushes and pops the
    block, pending-else and loop-label stacks in place, and may rewrite the
    line and ask for it to be parsed again. */
module ParserState {
  import opened Text
  import opened Syntax
  import opened FlowArgument
  import opened LoopFlavors
  import opened FlowStep
  import opened FlowProperties

  class Parser {
    const grammar: Grammar
    const helpers: Helpers
    /** The scope of the entry point method. */
    const mainScope: string
    /** The scope being parsed. */
    var scope: string
    var blocks: seq<Block>
    var elses: seq<Sink>
    var breakLabels: seq<BreakLabels>
    /** The number InternalID hands out next. */
    var internalId: nat
    /** The number the next statement collection gets. */
    var nextSink: nat

    function State(): FlowState
      reads this
    {
      FlowState(blocks, elses, breakLabels, internalId, nextSink)
    }

    ghost predicate Valid()
      reads this
    {
      WellFormed(State())
    }

    /** A parser in the entry point with all three stacks empty. */
    constructor (grammar: Grammar, helpers: Helpers, mainScope: string)
      ensures this.grammar == grammar && this.helpers == helpers && this.mainScope == mainScope
      ensures scope == mainScope && State() == FlowState([], [], [], 0, 0)
      ensures Valid()
    {
      this.grammar := grammar;
      this.helpers := helpers;
      this.mainScope := mainScope;
      scope := mainScope;
      blocks := [];
      elses := [];
      breakLabels := [];
      internalId := 0;
      nextSink := 0;
    }

    /** InternalID: a name not handed out before. */
    method InternalID() returns (id: nat)
      modifies this`internalId
      ensures id == old(internalId) && internalId == id + 1
    {
      id := internalId;
      internalId := internalId + 1;
    }

    /** A new, empty CodeStatementCollection. */
    method NewStatements() returns (sink: Sink)
      modifies this`nextSink
      ensures sink == Sink(old(nextSink)) && nextSink == old(nextSink) + 1
    {
      sink := Sink(nextSink);
      nextSink := nextSink + 1;
    }

    /** The `if` case. */
    method ParseIf(line: CodeLine, code: string, parts: seq<string>) returns (result: Result<Option<seq<Stmt>>>)
      modifies this`blocks, this`elses, this`nextSink
      ensures var r := IfStep(grammar, helpers, scope, old(State()), line, code, parts);
        result == r.output && State() == r.state
    {
      if |parts| < 2 {
        return Err(IndexOutOfRange);
      }
      var parameter := ParseFlowParameter(grammar, helpers, parts[1], true);
      if parameter.Err? {
        return Err(parameter.error);
      }
      if parameter.value.condition == Null {
        return Err(NullArgument);
      }
      var trueStatements := NewStatements();
      var falseStatements := NewStatements();
      var ifelse := Condition(Invoke(IfElseTest, [parameter.value.condition]), trueStatements, falseStatements);
      var block := Block(line, scope, trueStatements, IfElse, TypeOf(parameter.value.blockOpen));
      blocks := blocks + [block];
      elses := elses + [falseStatements];
      return Ok(Some([ifelse]));
    }

    /** The `else` case: it rewrites line.Code and may ask for a rewind. */
    method ParseElse(line: CodeLine, parts: seq<string>) returns (result: Result<Option<seq<Stmt>>>, rewind: bool)
      modifies this`blocks, this`elses, line`code
      ensures var r := ElseStep(grammar, scope, old(State()), line, old(line.code), parts);
        result == r.output && State() == r.state && line.code == r.code && rewind == r.rewind
    {
      if |elses| == 0 {
        return Err(DanglingElse), false;
      }
      if |parts| > 1 && |parts[1]| == 0 {
        return Err(IndexOutOfRange), false;
      }
      if |TrimStart(line.code, grammar.spaces)| < |KeywordText(FlowElse)| {
        // Substring throws after the pop; ElseLineIsLongEnough rules this out.
        elses := elses[..|elses| - 1];
        return Err(SubstringOutOfRange), false;
      }
      result, rewind := CloseBranch(line, parts);
    }

    /** The rest of the `else` case, once a false branch is pending, the
        argument (if any) is not empty and the keyword can be cut off: pop
        the branch, rewrite the line to the text after `else`, and push the
        branch's block unless that text is empty or starts with `if`. */
    method CloseBranch(line: CodeLine, parts: seq<string>) returns (result: Result<Option<seq<Stmt>>>, rewind: bool)
      requires |elses| > 0 && !(|parts| > 1 && |parts[1]| == 0)
      requires |TrimStart(line.code, grammar.spaces)| >= |KeywordText(FlowElse)|
      modifies this`blocks, this`elses, line`code
      ensures var r := ElseStep(grammar, scope, old(State()), line, old(line.code), parts);
        result == r.output && State() == r.state && line.code == r.code && rewind == r.rewind
    {
      var blockOpen := |parts| > 1 && parts[1][0] == grammar.blockOpen;
      var block := Block(line, scope, elses[|elses| - 1], IfElse, TypeOf(blockOpen));
      var rest := AfterElse(grammar, line.code);
      ElseStepSucceeds(grammar, scope, State(), line, line.code, parts);
      var push := rest != [] && !EqualsIgnoreCase(FirstWord(grammar, rest), KeywordText(FlowIf));
      elses, blocks := elses[..|elses| - 1], if push then blocks + [block] else blocks;
      line.code := rest;
      return Ok(None), rest != [];
    }

    /** The `loop` case. */
    method ParseLoop(line: CodeLine, code: string, parts: seq<string>) returns (result: Result<Option<seq<Stmt>>>)
      modifies this`blocks, this`breakLabels, this`internalId, this`nextSink
      ensures var r := LoopStep(grammar, helpers, scope, old(State()), line, code, parts);
        result == r.output && State() == r.state
    {
      var source := BuildLoopIterator(grammar, helpers, parts);
      if source.Err? {
        return Err(source.error);
      }
      var blockOpen := false;
      var id := InternalID();
      var init := DeclareEnumerable(id, GetEnumerator(source.value));
      var condition := MoveNext(id);
      var body := NewStatements();
      var loop := Iteration(init, Some(Comment("")), condition, body);
      var block := Block(line, scope, body, Loop, TypeOf(blockOpen));
      blocks := blocks + [block];
      var breakLabel := InternalID();
      var continueLabel := InternalID();
      var labels := BreakLabels(breakLabel, continueLabel);
      breakLabels := breakLabels + [labels];
      return Ok(Some([loop, Labeled(labels.breakLabel)]));
    }

    /** The `while` case. */
    method ParseWhile(line: CodeLine, code: string, parts: seq<string>) returns (result: Result<Option<seq<Stmt>>>)
      modifies this`blocks, this`breakLabels, this`internalId, this`nextSink
      ensures var r := WhileStep(grammar, helpers, scope, old(State()), line, code, parts);
        result == r.output && State() == r.state
    {
      var parameter := Ok(FlowParameter(Primitive(BoolValue(true)), false));
      if |parts| > 1 {
        parameter := ParseFlowParameter(grammar, helpers, parts[1], true);
      }
      if parameter.Err? {
        return Err(parameter.error);
      }
      var p := parameter.value;
      var body := NewStatements();
      var breakLabel := InternalID();
      var continueLabel := InternalID();
      var labels := BreakLabels(breakLabel, continueLabel);
      blocks, breakLabels := blocks + [Block(line, scope, body, Loop, TypeOf(p.blockOpen))], breakLabels + [labels];
      return Ok(Some([Iteration(Comment(""), None, p.condition, body), Labeled(labels.breakLabel)]));
    }

    /** The `gosub` and `goto` cases: a call to the label's method, and for
        `goto` a return after it. */
    method ParseGoto(code: string, parts: seq<string>, isGoto: bool) returns (result: Result<Option<seq<Stmt>>>)
      ensures result == GotoStep(State(), code, parts, isGoto).output
    {
      if |parts| < 2 {
        return Err(IndexOutOfRange);
      }
      var invoke := Invoke(LocalMethod(parts[1]), [Primitive(EmptyArguments)]);
      if isGoto {
        return Ok(Some([ExpressionStatement(invoke), Return(None)]));
      }
      return Ok(Some([ExpressionStatement(invoke)]));
    }

    /** The `break` and `continue` cases: a jump to a label of the innermost loop. */
    method ParseBreak(code: string, parts: seq<string>, isContinue: bool) returns (result: Result<Option<seq<Stmt>>>)
      ensures result == BreakStep(State(), code, parts, isContinue).output
    {
      if |parts| > 1 {
        return Err(ArgumentNotRequired);
      }
      if |breakLabels| == 0 {
        return Err(if isContinue then ContinueOutsideLoop else BreakOutsideLoop);
      }
      var top := breakLabels[|breakLabels| - 1];
      return Ok(Some([Goto(if isContinue then top.continueLabel else top.breakLabel)]));
    }

    /** The `return` case. */
    method ParseReturn(code: string, parts: seq<string>) returns (result: Result<Option<seq<Stmt>>>)
      ensures result == ReturnStep(State(), code, parts, scope == mainScope).output
    {
      if scope == mainScope {
        if |parts| > 1 {
          return Err(EntryPointReturnValue);
        }
        return Ok(Some([Return(None)]));
      }
      var value := if |parts| > 1 then SingleExpression(parts[1]) else Primitive(NullValue);
      return Ok(Some([Return(Some(value))]));
    }

    /** ParseFlow(line, out rewind): the statements for one flow line, or the
        error it throws; the stacks, the counters and line.Code change as
        Step says, and the invariant is kept. */
    method ParseFlow(line: CodeLine) returns (result: Result<Option<seq<Stmt>>>, rewind: bool)
      requires Valid()
      modifies this`blocks, this`elses, this`breakLabels, this`internalId, this`nextSink, line`code
      ensures Valid()
      ensures var r := Step(grammar, helpers, scope, mainScope, old(State()), line, old(line.code));
        result == r.output && State() == r.state && line.code == r.code && rewind == r.rewind
    {
      StepPreservesWellFormed(grammar, helpers, scope, mainScope, State(), line, line.code);
      result, rewind := Dispatch(line);
    }

    /** The switch on the line's first word. */
    method Dispatch(line: CodeLine) returns (result: Result<Option<seq<Stmt>>>, rewind: bool)
      modifies this`blocks, this`elses, this`breakLabels, this`internalId, this`nextSink, line`code
      ensures var r := Step(grammar, helpers, scope, mainScope, old(State()), line, old(line.code));
        result == r.output && State() == r.state && line.code == r.code && rewind == r.rewind
    {
      var code := line.code;
      StepDispatch(grammar, helpers, scope, mainScope, State(), line, code);
      RewindShortensLine(grammar, helpers, scope, mainScope, State(), line, code);
      var parts := Parts(grammar, code);
      rewind := false;
      match KeywordOf(parts[0])
      case FlowIf =>
        result := ParseIf(line, code, parts);
      case FlowElse =>
        result, rewind := ParseElse(line, parts);
      case _ =>
        result := ParseLoopOrJump(line);
    }

    /** The loop constructs, which push a block and a pair of labels, and the
        cases that change nothing. */
    method ParseLoopOrJump(line: CodeLine) returns (result: Result<Option<seq<Stmt>>>)
      requires KeywordOf(Parts(grammar, line.code)[0]) !in {FlowIf, FlowElse}
      modifies this`blocks, this`breakLabels, this`internalId, this`nextSink
      ensures var r := Step(grammar, helpers, scope, mainScope, old(State()), line, line.code);
        result == r.output && State() == r.state && line.code == r.code && !r.rewind
    {
      var code := line.code;
      StepDispatch(grammar, helpers, scope, mainScope, State(), line, code);
      RewindShortensLine(grammar, helpers, scope, mainScope, State(), line, code);
      var parts := Parts(grammar, code);
      match KeywordOf(parts[0])
      case FlowLoop =>
        result := ParseLoop(line, code, parts);
      case FlowWhile =>
        result := ParseWhile(line, code, parts);
      case _ =>
        result := ParseJump(line);
    }

    /** The cases that change neither the stacks nor the line: `gosub`,
        `goto`, `break`, `continue`, `return`, and a word that is none of the
        keywords. */
    method ParseJump(line: CodeLine) returns (result: Result<Option<seq<Stmt>>>)
      requires KeywordOf(Parts(grammar, line.code)[0]) !in {FlowIf, FlowElse, FlowLoop, FlowWhile}
      ensures var r := Step(grammar, helpers, scope, mainScope, State(), line, line.code);
        result == r.output && State() == r.state && line.code == r.code && !r.rewind
    {
      var code := line.code;
      StepDispatch(grammar, helpers, scope, mainScope, State(), line, code);
      RewindShortensLine(grammar, helpers, scope, mainScope, State(), line, code);
      var parts := Parts(grammar, code);
      match KeywordOf(parts[0])
      case FlowGosub =>
        result := ParseGoto(code, parts, false);
      case FlowGoto =>
        result := ParseGoto(code, parts, true);
      case FlowBreak =>
        result := ParseBreak(code, parts, false);
      case FlowContinue =>
        result := ParseBreak(code, parts, true);
      case FlowReturn =>
        result := ParseReturn(code, parts);
      case Other =>
        result := Err(Unexpected);
    }
  }
}

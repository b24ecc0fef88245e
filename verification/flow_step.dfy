/** One call of the flow dispatcher as a function of the parser's state:
    which construct the line's first word names, the statements it emits,
    how the three stacks and the two counters change, the rewritten line
    and the rewind flag. The imperative dispatcher in module ParserState is
    proved to compute exactly this. */
module FlowStep {
  import opened Text
  import opened Syntax
  import opened FlowArgument
  import opened LoopFlavors

  // ---------------------------------------------------------------------
  // Keywords

  /** The constructs the dispatcher's switch names, and everything else. */
  datatype Construct =
    | FlowIf | FlowElse | FlowGosub | FlowGoto | FlowLoop | FlowWhile
    | FlowBreak | FlowContinue | FlowReturn | Other

  /** The keyword constants the switch compares with (all lower case). */
  function KeywordText(c: Construct): string {
    match c
    case FlowIf => "if"
    case FlowElse => "else"
    case FlowGosub => "gosub"
    case FlowGoto => "goto"
    case FlowLoop => "loop"
    case FlowWhile => "while"
    case FlowBreak => "break"
    case FlowContinue => "continue"
    case FlowReturn => "return"
    case Other => ""
  }

  /** The switch on the lower-cased first part. */
  function KeywordOf(word: string): (c: Construct)
    ensures c != Other ==> Lower(word) == KeywordText(c)
    ensures c == Other ==> forall k :: k != Other ==> Lower(word) != KeywordText(k)
  {
    var w := Lower(word);
    if w == "if" then FlowIf
    else if w == "else" then FlowElse
    else if w == "gosub" then FlowGosub
    else if w == "goto" then FlowGoto
    else if w == "loop" then FlowLoop
    else if w == "while" then FlowWhile
    else if w == "break" then FlowBreak
    else if w == "continue" then FlowContinue
    else if w == "return" then FlowReturn
    else Other
  }

  lemma LowerOfLowercase(s: string)
    requires forall i :: 0 <= i < |s| ==> !('A' <= s[i] <= 'Z')
    ensures Lower(s) == s
  {
  }

  /** Every keyword is recognised, in any mix of letter case. */
  lemma KeywordRecognised(word: string, c: Construct)
    requires c != Other
    requires Lower(word) == KeywordText(c)
    ensures KeywordOf(word) == c
  {
  }

  /** A keyword constant is its own lower-case form, so the switch accepts it. */
  lemma {:induction false} KeywordRoundTrip(c: Construct)
    requires c != Other
    ensures KeywordOf(KeywordText(c)) == c
  {
    LowerOfLowercase(KeywordText(c));
    KeywordRecognised(KeywordText(c), c);
  }

  // ---------------------------------------------------------------------
  // Splitting the line

  /** Multicast, ParenOpen and the Spaces. */
  function Delimiters(g: Grammar): set<char> {
    {g.multicast, g.parenOpen} + g.spaces
  }

  /** `code.TrimStart(Spaces).Split(delimiters, 2)` with the second part
      trimmed: the first word, and, when a delimiter follows it, the rest of
      the line after that one delimiter. */
  function Parts(g: Grammar, code: string): (parts: seq<string>)
    ensures 1 <= |parts| <= 2
    ensures var t := TrimStart(code, g.spaces);
      var k := IndexOfAny(t, Delimiters(g));
      parts[0] == t[..k] &&
      (|parts| == 2 <==> k < |t|) &&
      (|parts| == 2 ==> parts[1] == Trim(t[k + 1..], g.spaces))
  {
    var pieces := Split(TrimStart(code, g.spaces), Delimiters(g), 2);
    if |pieces| > 1 then [pieces[0], Trim(pieces[1], g.spaces)] else pieces
  }

  /** The first part never holds a delimiter, so the loop-type switch sees
      the keyword itself. */
  lemma {:induction false} FirstPartHasNoDelimiter(g: Grammar, code: string)
    ensures forall i :: 0 <= i < |Parts(g, code)[0]| ==> Parts(g, code)[0][i] !in Delimiters(g)
  {
    var t := TrimStart(code, g.spaces);
    var k := IndexOfAny(t, Delimiters(g));
    assert Parts(g, code)[0] == t[..k];
  }

  // ---------------------------------------------------------------------
  // Parser state and one step

  /** The parser fields ParseFlow reads and writes. Stacks have their top
      at the end. `internalId` is the next InternalID; `nextSink` numbers the
      next statement collection to be created. */
  datatype FlowState = FlowState(
    blocks: seq<Block>,
    elses: seq<Sink>,
    breakLabels: seq<BreakLabels>,
    internalId: nat,
    nextSink: nat)

  /** The returned statements (None for the `else` case's null), the new
      state, the new line.Code and the rewind out-flag. */
  datatype StepResult = StepResult(
    output: Result<Option<seq<Stmt>>>,
    state: FlowState,
    code: string,
    rewind: bool)

  /** A thrown exception: nothing has been pushed or popped yet. */
  function Fail(s: FlowState, code: string, e: ParseError): StepResult {
    StepResult(Err(e), s, code, false)
  }

  function TypeOf(blockOpen: bool): BlockType {
    if blockOpen then Within else Expect
  }

  /** The `if` case: it fails exactly when the argument is missing or
      empty or the condition does not parse, and then changes nothing;
      otherwise it opens one block and one pending branch. An empty argument
      parses to a null condition, which the IfElse call's parameter
      collection refuses before anything is pushed. */
  function IfStep(g: Grammar, h: Helpers, scope: string, s: FlowState, line: CodeLine, code: string,
                  parts: seq<string>): (r: StepResult)
    ensures r.code == code && !r.rewind
    ensures r.output.Ok? <==>
      |parts| >= 2 && Trim(parts[1], g.spaces) != [] && ParseFlowParameter(g, h, parts[1], true).Ok?
    ensures r.output.Err? ==> r.state == s
    ensures r.output.Ok? ==>
      |r.state.blocks| == |s.blocks| + 1 && r.state.blocks[..|s.blocks|] == s.blocks &&
      |r.state.elses| == |s.elses| + 1 && r.state.elses[..|s.elses|] == s.elses &&
      r.state.breakLabels == s.breakLabels &&
      var block, pending := r.state.blocks[|s.blocks|], r.state.elses[|s.elses|];
      block.kind == IfElse && block.sink != pending &&
      s.nextSink <= block.sink.id < r.state.nextSink && s.nextSink <= pending.id < r.state.nextSink
  {
    if |parts| < 2 then Fail(s, code, IndexOutOfRange)
    else
      match ParseFlowParameter(g, h, parts[1], true)
      case Err(e) => Fail(s, code, e)
      case Ok(p) =>
        if p.condition == Null then Fail(s, code, NullArgument)
        else
          var trueStatements := Sink(s.nextSink);
          var falseStatements := Sink(s.nextSink + 1);
          var ifelse := Condition(Invoke(IfElseTest, [p.condition]), trueStatements, falseStatements);
          var block := Block(line, scope, trueStatements, IfElse, TypeOf(p.blockOpen));
          StepResult(Ok(Some([ifelse])),
            s.(blocks := s.blocks + [block], elses := s.elses + [falseStatements], nextSink := s.nextSink + 2),
            code, false)
  }

  /** The text after `else`, with leading spaces trimmed: a suffix of the
      line, at least as much shorter as the keyword is long, that starts
      with no space. */
  function AfterElse(g: Grammar, code: string): (rest: string)
    requires |TrimStart(code, g.spaces)| >= |KeywordText(FlowElse)|
    ensures |rest| + |KeywordText(FlowElse)| <= |code| && rest == code[|code| - |rest|..]
    ensures rest == [] || rest[0] !in g.spaces
  {
    TrimDropTrimIsSuffix(code, g.spaces, |KeywordText(FlowElse)|);
    TrimStart(TrimStart(code, g.spaces)[|KeywordText(FlowElse)|..], g.spaces)
  }

  /** The first word of a line, `Split(Spaces)[0]`: the longest prefix
      without a space. */
  function FirstWord(g: Grammar, code: string): (w: string)
    ensures |w| <= |code| && w == code[..|w|]
    ensures forall i :: 0 <= i < |w| ==> w[i] !in g.spaces
    ensures |w| == |code| || code[|w|] in g.spaces
  {
    Split(code, g.spaces, |code| + 1)[0]
  }

  lemma {:induction false} ElseLineIsLongEnough(g: Grammar, code: string)
    requires KeywordOf(Parts(g, code)[0]) == FlowElse
    ensures |TrimStart(code, g.spaces)| >= |KeywordText(FlowElse)|
  {
    assert |Lower(Parts(g, code)[0])| == |Parts(g, code)[0]|;
  }

  /** The `else` case. Its Substring cannot fail on a line whose first part
      is `else` (ElseLineIsLongEnough); the failure is kept, after the pop as
      in the source, so that the case needs no precondition. */
  function ElseStep(g: Grammar, scope: string, s: FlowState, line: CodeLine, code: string,
                    parts: seq<string>): (r: StepResult)
    ensures r.output.Ok? <==>
      |s.elses| > 0 && !(|parts| > 1 && |parts[1]| == 0) && |TrimStart(code, g.spaces)| >= |KeywordText(FlowElse)|
    ensures r.output.Err? ==> r.code == code && !r.rewind
    ensures r.output.Ok? ==>
      r.output.value == None && r.state.elses == s.elses[..|s.elses| - 1] &&
      r.state.breakLabels == s.breakLabels && |r.code| < |code| && (r.rewind <==> r.code != [])
  {
    if |s.elses| == 0 then Fail(s, code, DanglingElse)
    else if |parts| > 1 && |parts[1]| == 0 then Fail(s, code, IndexOutOfRange)
    else
      var blockOpen := |parts| > 1 && parts[1][0] == g.blockOpen;
      var block := Block(line, scope, s.elses[|s.elses| - 1], IfElse, TypeOf(blockOpen));
      var popped := s.(elses := s.elses[..|s.elses| - 1]);
      if |TrimStart(code, g.spaces)| < |KeywordText(FlowElse)| then Fail(popped, code, SubstringOutOfRange)
      else
        var rest := AfterElse(g, code);
        assert |KeywordText(FlowElse)| == 4;
        var rewind := |rest| != 0;
        var push := rewind && !EqualsIgnoreCase(FirstWord(g, rest), KeywordText(FlowIf));
        StepResult(Ok(None),
          popped.(blocks := if push then s.blocks + [block] else s.blocks),
          rest, rewind)
  }

  /** The call to the label's method with an empty argument array; `goto`
      adds a return after it. */
  function GotoStep(s: FlowState, code: string, parts: seq<string>, isGoto: bool): (r: StepResult)
    ensures r.state == s && r.code == code && !r.rewind
    ensures r.output.Ok? <==> |parts| >= 2
    ensures r.output.Ok? ==> r.output.value.Some? && |r.output.value.value| == if isGoto then 2 else 1
  {
    if |parts| < 2 then Fail(s, code, IndexOutOfRange)
    else
      var call := ExpressionStatement(Invoke(LocalMethod(parts[1]), [Primitive(EmptyArguments)]));
      StepResult(Ok(Some(if isGoto then [call, Return(None)] else [call])), s, code, false)
  }

  /** The `loop` case: it fails exactly when the iteration source does,
      and then changes nothing; otherwise it opens one block and one pair of
      labels handed out by this step. */
  function LoopStep(g: Grammar, h: Helpers, scope: string, s: FlowState, line: CodeLine, code: string,
                    parts: seq<string>): (r: StepResult)
    ensures r.code == code && !r.rewind
    ensures r.output.Ok? <==> LoopIterator(g, h, parts).Ok?
    ensures r.output.Err? ==> r.state == s
    ensures r.output.Ok? ==>
      |r.state.blocks| == |s.blocks| + 1 && r.state.blocks[..|s.blocks|] == s.blocks && r.state.elses == s.elses &&
      |r.state.breakLabels| == |s.breakLabels| + 1 && r.state.breakLabels[..|s.breakLabels|] == s.breakLabels &&
      var block, top := r.state.blocks[|s.blocks|], r.state.breakLabels[|s.breakLabels|];
      block.kind == Loop && s.nextSink <= block.sink.id < r.state.nextSink &&
      s.internalId <= top.breakLabel < top.continueLabel < r.state.internalId
  {
    match LoopIterator(g, h, parts)
    case Err(e) => Fail(s, code, e)
    case Ok(source) =>
      var id := s.internalId;
      var init := DeclareEnumerable(id, GetEnumerator(source));
      var body := Sink(s.nextSink);
      var loop := Iteration(init, Some(Comment("")), MoveNext(id), body);
      var block := Block(line, scope, body, Loop, TypeOf(false));
      var labels := BreakLabels(id + 1, id + 2);
      StepResult(Ok(Some([loop, Labeled(labels.breakLabel)])),
        s.(blocks := s.blocks + [block], breakLabels := s.breakLabels + [labels],
           internalId := id + 3, nextSink := s.nextSink + 1),
        code, false)
  }

  /** The `while` case: it fails exactly when a condition is given and does
      not parse, and then changes nothing; otherwise it opens one block and
      one pair of labels handed out by this step. */
  function WhileStep(g: Grammar, h: Helpers, scope: string, s: FlowState, line: CodeLine, code: string,
                     parts: seq<string>): (r: StepResult)
    ensures r.code == code && !r.rewind
    ensures r.output.Ok? <==> |parts| <= 1 || ParseFlowParameter(g, h, parts[1], true).Ok?
    ensures r.output.Err? ==> r.state == s
    ensures r.output.Ok? ==>
      |r.state.blocks| == |s.blocks| + 1 && r.state.blocks[..|s.blocks|] == s.blocks && r.state.elses == s.elses &&
      |r.state.breakLabels| == |s.breakLabels| + 1 && r.state.breakLabels[..|s.breakLabels|] == s.breakLabels &&
      var block, top := r.state.blocks[|s.blocks|], r.state.breakLabels[|s.breakLabels|];
      block.kind == Loop && s.nextSink <= block.sink.id < r.state.nextSink &&
      s.internalId <= top.breakLabel < top.continueLabel < r.state.internalId
  {
    var p := if |parts| > 1 then ParseFlowParameter(g, h, parts[1], true)
             else Ok(FlowParameter(Primitive(BoolValue(true)), false));
    match p
    case Err(e) => Fail(s, code, e)
    case Ok(p) =>
      var body := Sink(s.nextSink);
      var loop := Iteration(Comment(""), None, p.condition, body);
      var block := Block(line, scope, body, Loop, TypeOf(p.blockOpen));
      var labels := BreakLabels(s.internalId, s.internalId + 1);
      StepResult(Ok(Some([loop, Labeled(labels.breakLabel)])),
        s.(blocks := s.blocks + [block], breakLabels := s.breakLabels + [labels],
           internalId := s.internalId + 2, nextSink := s.nextSink + 1),
        code, false)
  }

  /** A jump to the innermost loop's break or continue label. */
  function BreakStep(s: FlowState, code: string, parts: seq<string>, isContinue: bool): (r: StepResult)
    ensures r.state == s && r.code == code && !r.rewind
    ensures r.output.Ok? <==> |parts| <= 1 && |s.breakLabels| > 0
    ensures r.output.Ok? ==>
      var top := s.breakLabels[|s.breakLabels| - 1];
      r.output.value.Some? && |r.output.value.value| == 1 &&
      r.output.value.value[0].Goto? &&
      r.output.value.value[0].target in {top.breakLabel, top.continueLabel}
  {
    if |parts| > 1 then Fail(s, code, ArgumentNotRequired)
    else if |s.breakLabels| == 0 then Fail(s, code, if isContinue then ContinueOutsideLoop else BreakOutsideLoop)
    else
      var top := s.breakLabels[|s.breakLabels| - 1];
      StepResult(Ok(Some([Goto(if isContinue then top.continueLabel else top.breakLabel)])), s, code, false)
  }

  /** The `return` case: only a value at the entry point fails. */
  function ReturnStep(s: FlowState, code: string, parts: seq<string>, atEntryPoint: bool): (r: StepResult)
    ensures r.state == s && r.code == code && !r.rewind
    ensures r.output.Ok? <==> !(atEntryPoint && |parts| > 1)
    ensures r.output.Ok? ==>
      r.output.value.Some? && |r.output.value.value| == 1 && r.output.value.value[0].Return? &&
      (r.output.value.value[0].value.None? <==> atEntryPoint)
  {
    if atEntryPoint then
      if |parts| > 1 then Fail(s, code, EntryPointReturnValue)
      else StepResult(Ok(Some([Return(None)])), s, code, false)
    else
      var value := if |parts| > 1 then SingleExpression(parts[1]) else Primitive(NullValue);
      StepResult(Ok(Some([Return(Some(value))])), s, code, false)
  }

  /** One ParseFlow call on `code` (line.Code) in scope `scope`. */
  function Step(g: Grammar, h: Helpers, scope: string, mainScope: string, s: FlowState, line: CodeLine,
                code: string): (r: StepResult)
    ensures r.output.Err? ==> r.state == s && r.code == code && !r.rewind
    ensures KeywordOf(Parts(g, code)[0]) != FlowElse ==> r.code == code && !r.rewind
    ensures KeywordOf(Parts(g, code)[0]) == Other ==> r.output == Err(Unexpected)
  {
    var parts := Parts(g, code);
    match KeywordOf(parts[0])
    case FlowIf => IfStep(g, h, scope, s, line, code, parts)
    case FlowElse => ElseLineIsLongEnough(g, code); ElseStep(g, scope, s, line, code, parts)
    case FlowGosub => GotoStep(s, code, parts, false)
    case FlowGoto => GotoStep(s, code, parts, true)
    case FlowLoop => LoopStep(g, h, scope, s, line, code, parts)
    case FlowWhile => WhileStep(g, h, scope, s, line, code, parts)
    case FlowBreak => BreakStep(s, code, parts, false)
    case FlowContinue => BreakStep(s, code, parts, true)
    case FlowReturn => ReturnStep(s, code, parts, scope == mainScope)
    case Other => Fail(s, code, Unexpected)
  }

  // ---------------------------------------------------------------------
  // The invariant the class keeps

  /** Every open block and pending else has its own statement collection,
      all created before `nextSink`; the loops' labels are handed out in
      order, each pair below `internalId`, inner loops after outer ones. */
  predicate WellFormed(s: FlowState) {
    (forall i :: 0 <= i < |s.blocks| ==> s.blocks[i].sink.id < s.nextSink) &&
    (forall i :: 0 <= i < |s.elses| ==> s.elses[i].id < s.nextSink) &&
    (forall i, j :: 0 <= i < j < |s.blocks| ==> s.blocks[i].sink != s.blocks[j].sink) &&
    (forall i, j :: 0 <= i < j < |s.elses| ==> s.elses[i] != s.elses[j]) &&
    (forall i, j :: 0 <= i < |s.blocks| && 0 <= j < |s.elses| ==> s.blocks[i].sink != s.elses[j]) &&
    (forall i :: 0 <= i < |s.breakLabels| ==>
      s.breakLabels[i].breakLabel < s.breakLabels[i].continueLabel < s.internalId) &&
    (forall i, j :: 0 <= i < j < |s.breakLabels| ==>
      s.breakLabels[i].continueLabel < s.breakLabels[j].breakLabel)
  }
}

# IronAHK flow-statement parser

IronAHK compiles AutoHotkey scripts to .NET through a CodeDom tree. Its
parser handles each flow-control statement (`if`, `else`, `gosub`, `goto`,
`loop`, `while`, `break`, `continue` and `return`) in `ParseFlow`:

- It splits the line into a keyword and an argument.
- It emits the CodeDom statements for the keyword.
- It keeps three stacks on the parser object:
  - the open blocks;
  - the false branches still waiting for an `else`;
  - the break/continue labels of the enclosing loops.
- For `else` it rewrites the line in place and asks its caller to parse the rest again (the `rewind` out-flag).

A condition goes through `ParseFlowParameter`:

- `IsExpression` decides whether the text is a full expression or legacy shorthand.
- A full expression loses a trailing `{`, which marks the block as brace-delimited.
- Shorthand such as `x` or `x = 5` is rewritten by `ParseInequality` into expression text, `x != ""` or `x = "5"`.

This project is a Dafny model of that code.

- Module `Text` gives the .NET string operations the parser uses, on `seq<char>`: ASCII case folding, `TrimStart`, `TrimEnd`, `Trim`, `IndexOfAny` and `Split` with a count.
- Module `Syntax` holds:
  - the grammar's character constants, kept abstract;
  - the parser helpers defined in other files (`IsIdentifier`, `IsSpace`, `StripCommentSingle`, …), taken as given functions;
  - an abstract CodeDom: expressions, statements, statement collections (`Sink`), blocks and break labels;
  - the errors the parser throws.
- Module `FlowArgument` models `IsExpression`, `ParseFlowParameter` and `ParseInequality`. `ParseInequality` is a method with loops, proved equal to the function `InequalityText`, and lemmas state what that text is for each shape of shorthand.
- Module `LoopFlavors` models the loop-type switch and the iterator call of the `loop` case.
- Module `FlowStep` describes one `ParseFlow` call as a pure function `Step`. It takes the parser's state and returns four things: the statements (or the error), the new state, the new `line.Code` and the `rewind` flag.
- Module `FlowProperties` proves, about `Step`:
  - what each construct does;
  - that every step is disciplined: stacks change only at the top, and a failing line changes nothing;
  - that only `else` rewrites the line, and a rewind always gives back a shorter line;
  - that the invariant `WellFormed` is kept: pending branches and open blocks never share a statement collection, and loop labels are distinct and ordered;
  - what `break` after `loop`, and `else if` chains, do across lines.
- Module `ParserState` holds the class `Parser`, whose fields are the three stacks and the two counters. Its `ParseFlow` method updates them in place, one method per case. Each method is proved to compute exactly what `Step` (or the case's step function) says. `ParseFlow` also keeps `WellFormed`.

The model keeps the code's behaviour as written, including its quirks:

- `if`, `goto` and `gosub` without an argument read `parts[1]` and fail with an index error. Their `parts.Length < 1` guards can never fire, because `Split` always returns at least one part (`FlowStep.Parts`).
- `loop` without an argument fails the same way: its `parts.Length > 0` branch is always taken and reads `parts[1]`.
- `else` followed by only a delimiter fails on `parts[1][0]`.
- `if` followed by only a delimiter (`if,`, `if(`) gets a null condition from `ParseFlowParameter`. Adding it to the IfElse call's parameters throws `ArgumentNullException` before anything is pushed (`FlowProperties.IfWithEmptyArgumentFails`). `while` sets its test directly and accepts the null.
- The loop-type switch looks at `parts[0]`, the keyword itself, so every loop is the generic one (`FlowProperties.LoopWordIsGeneric`).
- The `int.MaxValue` branch needs a line without parts, which `Split` never gives.
- A `loop` block is always `Expect`, because `blockOpen` is never set in that case.
- `IsExpression` compares the whole condition, not its first word, with `and`/`or`/`not`, because `Split(Spaces, 1)` returns its input unsplit.
- The loop-type switch has ten registry names (`LoopFlavors.RegistryRootNames`).
- `else` pushes no block of its own whenever the first space-separated word of the rest of the line is `if`. That holds for `else if x`, and also for a bare `else if`, whose rewound `if` then has no argument and fails with an index error after the pending branch has been popped (`FlowProperties.ElseBareIfFails`).
- When a ParenOpen or Multicast follows `if` directly, the first word is longer than `if`, so `else` pushes a block, and the rewound `if` pushes another when its condition parses (`FlowProperties.ElseIfChainDepth`). An example is `else if,x`, whose rewound `if` gets the condition `x`. The split consumes that delimiter, so with a parenthesis the condition loses its opening one: `else if(x)` hands `x)` to the condition parser.
- The bare-name shorthand becomes the name followed by Not, Equal and two StringBounds.
- A character after the name that is not a comparator throws the general "unexpected" error.
- An `else`'s block type comes from the first character of its argument part, `parts[1][0]`.

## Model

| member | source | states |
|---|---|---|
| Text.TrimDropTrimIsSuffix | Scripting/Parser/Construct/ParseFlow.cs:66 | trimming, cutting n characters and trimming again leaves a suffix of the line at least n characters shorter |
| FlowArgument.ScanForParen | Scripting/Parser/Construct/ParseFlow.cs:295-303 | the character loop answers true exactly when a ParenOpen comes before any non-identifier character |
| FlowArgument.IsExpression | Scripting/Parser/Construct/ParseFlow.cs:276-304 | a condition is a full expression exactly when it starts with ParenOpen, starts with a character that is neither identifier nor letter/digit, is (as a whole, any case) `and`/`or`/`not`, or has a ParenOpen before its first non-identifier character |
| FlowArgument.IdentifierTextIsShorthand | Scripting/Parser/Construct/ParseFlow.cs:295-303 | identifier text without ParenOpen that is not a logical word is shorthand |
| FlowArgument.LogicalWordWithOperandIsShorthand | Scripting/Parser/Construct/ParseFlow.cs:286-293 | `and x` is not recognised as a logical expression: the word test sees the whole text |
| FlowArgument.SkipSpaces | Scripting/Parser/Construct/ParseFlow.cs:311 | the index after the run of spaces: every skipped character is a space and the next is not |
| FlowArgument.NameEnd | Scripting/Parser/Construct/ParseFlow.cs:313-314 | the index after the run of identifier or Resolve characters |
| FlowArgument.InequalityText | Scripting/Parser/Construct/ParseFlow.cs:306-349 | the synthesized text ends with a StringBound; the only error is the unexpected-character one |
| FlowArgument.LeadingScans | Scripting/Parser/Construct/ParseFlow.cs:311-316 | the three leading scans find exactly the name and the following spaces of a text laid out that way |
| FlowArgument.InequalityOfBareName | Scripting/Parser/Construct/ParseFlow.cs:318-324 | `name` with surrounding spaces becomes the not-empty test `name` Not Equal `""` |
| FlowArgument.ComparatorScan | Scripting/Parser/Construct/ParseFlow.cs:327-339 | one or two comparator characters are taken, a second only when it is a comparator, then the spaces are skipped |
| FlowArgument.InequalityOfComparison | Scripting/Parser/Construct/ParseFlow.cs:325-347 | `name op literal` becomes `name op "literal"` with the literal verbatim, for one- and two-character comparators |
| FlowArgument.InequalityRejects | Scripting/Parser/Construct/ParseFlow.cs:327-330 | a character after the name and its spaces that starts no comparator is rejected as unexpected, whether punctuation or the start of a word (`x y`, `var in list`) |
| FlowArgument.SkipSpacesLoop | Scripting/Parser/Construct/ParseFlow.cs:311 | the while loop stops where SkipSpaces says |
| FlowArgument.AppendName | Scripting/Parser/Construct/ParseFlow.cs:313-314 | the loop stops at NameEnd and has appended exactly the name |
| FlowArgument.AppendComparison | Scripting/Parser/Construct/ParseFlow.cs:332-346 | the buffer gains the comparator, a StringBound, the rest after its spaces, and a StringBound |
| FlowArgument.InequalityExpr | Scripting/Parser/Construct/ParseFlow.cs:349 | the text handed to ParseSingleExpression ends with a StringBound, and the only error is the unexpected-character one |
| FlowArgument.ParseInequality | Scripting/Parser/Construct/ParseFlow.cs:306-350 | the imperative synthesizer yields the parse of InequalityText, or its error |
| FlowArgument.ParseFlowParameter | Scripting/Parser/Construct/ParseFlow.cs:245-274 | empty text, and only empty text, gives null; blockOpen is set exactly for a full expression ending in BlockOpen, which is then dropped; any other full expression is parsed whole, with blockOpen false; shorthand with `inequality` succeeds exactly when the synthesizer does, on the comment-stripped text; without it, it is a literal when IsPrimativeObject accepts that text and unexpected otherwise |
| LoopFlavors.LoopFlavorOf | Scripting/Parser/Construct/ParseFlow.cs:110-140 | READ, PARSE and the registry names select their own flavors and every other word the generic loop; the cases do not overlap |
| LoopFlavors.RegistryRootNames | Scripting/Parser/Construct/ParseFlow.cs:122-131 | exactly ten distinct registry names select the registry flavor |
| LoopFlavors.LoopIterator | Scripting/Parser/Construct/ParseFlow.cs:108-160 | no parts: int.MaxValue count; one part: index error; a flavored loop needs a Multicast and keeps the arguments from it on; a generic loop takes all the arguments |
| LoopFlavors.ParseCommandParameters | Scripting/Parser/Construct/ParseFlow.cs:152-153 | one ParseCommandParameter per piece of SplitCommandParameters, in order |
| LoopFlavors.BuildLoopIterator | Scripting/Parser/Construct/ParseFlow.cs:107-160 | the imperative loop-type region yields LoopIterator |
| FlowStep.KeywordOf | Scripting/Parser/Construct/ParseFlow.cs:32 | a word selects a construct exactly when its lower case is that keyword, and Other when it is none |
| FlowStep.KeywordRecognised | Scripting/Parser/Construct/ParseFlow.cs:32 | every keyword is recognised in any letter case |
| FlowStep.KeywordRoundTrip | Scripting/Parser/Construct/ParseFlow.cs:32 | each keyword constant selects its own case |
| FlowStep.Parts | Scripting/Parser/Construct/ParseFlow.cs:18-26 | one or two parts: the text up to the first delimiter of the left-trimmed line, and the trimmed rest exactly when a delimiter exists |
| FlowStep.FirstPartHasNoDelimiter | Scripting/Parser/Construct/ParseFlow.cs:23 | the first part holds no delimiter |
| FlowStep.ElseLineIsLongEnough | Scripting/Parser/Construct/ParseFlow.cs:66 | on an `else` line the Substring past the keyword cannot fail |
| FlowStep.IfStep | Scripting/Parser/Construct/ParseFlow.cs:36-55 | `if` fails exactly when the argument is missing or empty or the condition does not parse, and then changes nothing; otherwise it keeps the stacks below, pushes one IfElse block and one pending branch on two distinct collections created by this step, and keeps the line |
| FlowStep.AfterElse | Scripting/Parser/Construct/ParseFlow.cs:66 | the rewritten `else` line is a suffix of the old one, at least four characters shorter, starting with no space |
| FlowStep.FirstWord | Scripting/Parser/Construct/ParseFlow.cs:70 | `Split(Spaces)[0]` is the longest prefix of the line without a space |
| FlowStep.ElseStep | Scripting/Parser/Construct/ParseFlow.cs:57-73 | `else` succeeds exactly when a branch is pending, the argument part is not empty and the keyword can be cut off; it then pops that branch, returns null and hands back a strictly shorter line, rewinding exactly when that line is not empty |
| FlowStep.GotoStep | Scripting/Parser/Construct/ParseFlow.cs:79-95 | `gosub`/`goto` succeed exactly when a label is given, emit one or (for `goto`) two statements, and change neither state nor line |
| FlowStep.LoopStep | Scripting/Parser/Construct/ParseFlow.cs:101-186 | `loop` fails exactly when its iteration source does, and then changes nothing; otherwise it keeps the stacks below, pushes one Loop block on a collection created by this step and a label pair handed out by this step, break label before continue label |
| FlowStep.WhileStep | Scripting/Parser/Construct/ParseFlow.cs:188-204 | `while` fails exactly when a given condition does not parse, and then changes nothing; otherwise it keeps the stacks below, pushes one Loop block on a collection created by this step and a label pair handed out by this step, break label before continue label |
| FlowStep.BreakStep | Scripting/Parser/Construct/ParseFlow.cs:206-218 | `break`/`continue` succeed exactly without an argument inside a loop, emitting one goto to a label of the innermost loop, and change nothing |
| FlowStep.ReturnStep | Scripting/Parser/Construct/ParseFlow.cs:224-232 | `return` fails only with a value at the entry point, emits one return statement, valueless exactly at the entry point, and changes nothing |
| FlowStep.Step | Scripting/Parser/Construct/ParseFlow.cs:12-241 | a failing line changes neither state nor line; only `else` rewrites the line or rewinds; an unknown first word fails as unexpected |
| FlowProperties.IfStepEffect | Scripting/Parser/Construct/ParseFlow.cs:36-55 | the `if` case's function: index error without argument, the parameter's error unchanged, the null-argument error for an empty argument, otherwise one condition, a block on its fresh true branch and its distinct fresh false branch pending |
| FlowProperties.IfOpensBlockAndPendingElse | Scripting/Parser/Construct/ParseFlow.cs:36-55 | `if` emits one condition on the IfElse test, pushes an IfElse block on its fresh true branch (Within exactly for a full expression ending in BlockOpen) and its distinct fresh false branch as pending else; no argument fails with an index error and an empty one with the null-argument error |
| FlowProperties.ElseStepPops | Scripting/Parser/Construct/ParseFlow.cs:59-63 | an accepted `else` pops exactly the top pending branch and leaves labels and counters alone |
| FlowProperties.ElseStepRewrites | Scripting/Parser/Construct/ParseFlow.cs:66-67 | the line becomes the text after `else` and the rewind flag is set exactly when that text is not empty |
| FlowProperties.ElseStepPushes | Scripting/Parser/Construct/ParseFlow.cs:62-71 | the block on the popped branch is pushed exactly when the rest is not empty and its first word is not `if` |
| FlowProperties.ElseStepEffect | Scripting/Parser/Construct/ParseFlow.cs:57-73 | the `else` case's function meets ElseEffect: dangling-else and index errors change nothing, otherwise pop, rewrite, rewind and conditional push |
| FlowProperties.ElseClosesPendingBranch | Scripting/Parser/Construct/ParseFlow.cs:57-73 | a whole step on an `else` line meets ElseEffect |
| FlowProperties.GotoCallsLabel | Scripting/Parser/Construct/ParseFlow.cs:79-95 | `gosub` calls the label's method with an empty argument array, `goto` also returns after it; neither changes state or line; no label fails with an index error |
| FlowProperties.LoopWordIsGeneric | Scripting/Parser/Construct/ParseFlow.cs:110-139 | the upper-cased `loop` keyword selects the generic flavor |
| FlowProperties.LoopOpensLoopBlock | Scripting/Parser/Construct/ParseFlow.cs:101-186 | `loop` emits an iteration over the generic loop of all its arguments with a fresh enumerator, pushes an Expect Loop block on a fresh body and a fresh ordered label pair, and places the break label after the loop; a bare `loop` fails |
| FlowProperties.WhileOpensLoopBlock | Scripting/Parser/Construct/ParseFlow.cs:188-204 | `while` emits an iteration on the flow parameter (true without argument), pushes a Loop block typed by blockOpen and a fresh label pair, placing the break label after the loop; a failing parameter changes nothing |
| FlowProperties.BreakJumpsToInnermostLoop | Scripting/Parser/Construct/ParseFlow.cs:206-218 | `break`/`continue` jump to the innermost loop's break/continue label, refuse an argument and fail outside a loop |
| FlowProperties.ReturnLeavesMethod | Scripting/Parser/Construct/ParseFlow.cs:224-232 | in the entry point `return` takes no value; elsewhere it returns the parsed argument or null |
| FlowProperties.OtherWordIsUnexpected | Scripting/Parser/Construct/ParseFlow.cs:236-237 | any other first word fails as unexpected and changes nothing |
| FlowProperties.ElseStepDisciplined | Scripting/Parser/Construct/ParseFlow.cs:57-73 | `else` pops the pending stack or fails without change |
| FlowProperties.IfStepDisciplined | Scripting/Parser/Construct/ParseFlow.cs:36-55 | `if` pushes one block and one pending branch or fails without change, and keeps the line |
| FlowProperties.LoopStepDisciplined | Scripting/Parser/Construct/ParseFlow.cs:101-186 | `loop` pushes one block and one label pair or fails without change, and keeps the line |
| FlowProperties.WhileStepDisciplined | Scripting/Parser/Construct/ParseFlow.cs:188-204 | `while` pushes one block and one label pair or fails without change, and keeps the line |
| FlowProperties.StepIsDisciplined | Scripting/Parser/Construct/ParseFlow.cs:12-241 | every step either throws with nothing changed or changes each stack only at its top by at most one element, and never decreases the counters |
| FlowProperties.RewindShortensLine | Scripting/Parser/Construct/ParseFlow.cs:66-67 | only `else` rewrites the line or rewinds, and a rewind hands back a strictly shorter line |
| FlowProperties.PushBranchWellFormed | Scripting/Parser/Construct/ParseFlow.cs:49-53 | pushing a block on a fresh collection and another fresh collection as pending else keeps WellFormed |
| FlowProperties.PopElseWellFormed | Scripting/Parser/Construct/ParseFlow.cs:63-71 | popping the pending branch and perhaps opening a block on it keeps WellFormed |
| FlowProperties.PushLoopWellFormed | Scripting/Parser/Construct/ParseFlow.cs:178-183 | pushing a loop block on a fresh collection and a new ordered label pair keeps WellFormed |
| FlowProperties.IfStepWellFormed | Scripting/Parser/Construct/ParseFlow.cs:36-55 | the `if` case keeps WellFormed |
| FlowProperties.ElseStepWellFormed | Scripting/Parser/Construct/ParseFlow.cs:57-73 | the `else` case keeps WellFormed |
| FlowProperties.LoopStepWellFormed | Scripting/Parser/Construct/ParseFlow.cs:101-186 | the `loop` case keeps WellFormed |
| FlowProperties.WhileStepWellFormed | Scripting/Parser/Construct/ParseFlow.cs:188-204 | the `while` case keeps WellFormed |
| FlowProperties.StepPreservesWellFormed | Scripting/Parser/Construct/ParseFlow.cs:12-241 | every step keeps WellFormed: open blocks and pending branches have distinct collections, labels are ordered below the counter |
| FlowProperties.LabelsAreDistinct | Scripting/Parser/Construct/ParseFlow.cs:182 | in a well-formed state no two loops share a label and no loop's break and continue labels coincide |
| FlowProperties.BreakAfterLoopLeavesThatLoop | Scripting/Parser/Construct/ParseFlow.cs:182-218 | a `break` right after a `loop` jumps to the label that loop placed after itself; a `continue` to its distinct continue label |
| FlowProperties.PartsAt | Scripting/Parser/Construct/ParseFlow.cs:23-26 | a line that starts with no space and first meets a delimiter at k splits at k |
| FlowProperties.ElseIfLineSplits | Scripting/Parser/Construct/ParseFlow.cs:23-26 | `else if…` is read as an `else` with a non-empty argument |
| FlowProperties.ElseIfLineRest | Scripting/Parser/Construct/ParseFlow.cs:66 | the rewritten `else if…` line is the `if…` text |
| FlowProperties.RewoundIfSplits | Scripting/Parser/Construct/ParseFlow.cs:70 | the rewound text is an `if` with an argument, and its first space-separated word is `if` exactly when a space follows the keyword |
| FlowProperties.ElseIfRewindsToIf | Scripting/Parser/Construct/ParseFlow.cs:66-71 | `else if` pops its branch and rewinds to the `if` text; the else pushes no block exactly when a space follows `if` |
| FlowProperties.ElseIfChainDepth | Scripting/Parser/Construct/ParseFlow.cs:69-71 | after both steps of `else if`, the pending branches are back to their number and the blocks are one deeper with a space after `if`, two deeper with a ParenOpen |
| FlowProperties.ElseBareIfFails | Scripting/Parser/Construct/ParseFlow.cs:57-73 | a bare `else if` pops its branch, pushes no block and rewinds to `if`, which then fails with an index error |
| FlowProperties.IfWithEmptyArgumentFails | Scripting/Parser/Construct/ParseFlow.cs:42-46 | `if` followed by a delimiter and nothing else fails with the null-argument error and changes nothing |
| ParserState.Parser.constructor | Scripting/Parser/Construct/ParseFlow.cs:10 | a new parser has empty stacks and is WellFormed |
| ParserState.Parser.InternalID | Scripting/Parser/Construct/ParseFlow.cs:162 | hands out the counter and advances it |
| ParserState.Parser.NewStatements | Scripting/Parser/Construct/ParseFlow.cs:43 | a new statement collection, numbered after all earlier ones |
| ParserState.Parser.ParseIf | Scripting/Parser/Construct/ParseFlow.cs:36-55 | the imperative `if` case computes IfStep's output and state |
| ParserState.Parser.ParseElse | Scripting/Parser/Construct/ParseFlow.cs:57-73 | the imperative `else` case computes ElseStep's output, state, line and rewind flag |
| ParserState.Parser.CloseBranch | Scripting/Parser/Construct/ParseFlow.cs:62-71 | pop, rewrite and conditional push of an accepted `else`, as ElseStep says |
| ParserState.Parser.ParseLoop | Scripting/Parser/Construct/ParseFlow.cs:101-186 | the imperative `loop` case computes LoopStep's output and state |
| ParserState.Parser.ParseWhile | Scripting/Parser/Construct/ParseFlow.cs:188-204 | the imperative `while` case computes WhileStep's output and state |
| ParserState.Parser.ParseGoto | Scripting/Parser/Construct/ParseFlow.cs:79-95 | the `gosub`/`goto` statements are GotoStep's |
| ParserState.Parser.ParseBreak | Scripting/Parser/Construct/ParseFlow.cs:206-218 | the `break`/`continue` jump is BreakStep's |
| ParserState.Parser.ParseReturn | Scripting/Parser/Construct/ParseFlow.cs:224-232 | the `return` statement is ReturnStep's |
| ParserState.Parser.ParseFlow | Scripting/Parser/Construct/ParseFlow.cs:12-241 | one call yields Step's statements or error, new stacks and counters, new line.Code and rewind flag, and keeps WellFormed |
| ParserState.Parser.Dispatch | Scripting/Parser/Construct/ParseFlow.cs:32-238 | the switch on the first word computes Step |
| ParserState.Parser.ParseLoopOrJump | Scripting/Parser/Construct/ParseFlow.cs:79-237 | the cases other than `if`/`else` compute Step and keep the line |
| ParserState.Parser.ParseJump | Scripting/Parser/Construct/ParseFlow.cs:206-237 | the cases that change nothing compute Step and keep state and line |

## Left out

- The CodeDom tree is abstract: expressions and statements are datatypes, and `ParseSingleExpression`, `ParseCommandParameter` and `LocalMethodInvoke` appear as symbolic results that record their input text.
- `ParseSingleExpression`, `ParseCommandParameter` and `LocalMethodInvoke` are taken as total: the model assumes they never throw. Where a contract says a case always succeeds, it rests on that assumption. This applies to `ParseFlowParameter` on a full expression, `loop` with an argument, `goto`/`gosub` with a label, `return` and `break` after `loop`. In the source, a throw from one of these calls would come before any push or pop, so it would leave the state unchanged like the model's other failures.
- `IsIdentifier`, `char.IsLetterOrDigit`, `IsSpace`, `StripCommentSingle`, `IsPrimativeObject` and `SplitCommandParameters` are defined in other files of the parser. They are not part of this model and are taken as given total functions. `IsPrimativeObject`'s parsed value is kept only as the text it came from.
- The grammar's characters (`Multicast`, `ParenOpen`, `BlockOpen`, `Spaces`, …) are defined in other files. They are parameters of the model.
- The `InternalMethods` runtime (`IfElse`, `Loop`, `LoopRead`, `LoopParse`, `LoopRegistry`) is not part of this model. Calls to it are named, not executed.
- The `InternalID` property lives elsewhere in the parser. It is modelled as a counter that hands out fresh numbers, and labels are those numbers rather than strings.
- Statement collections are numbered by creation order, standing in for object identity.
- Closing blocks, and the caller's loop that re-parses a rewound line, belong to other parts of the parser. So does the caller's `Scope` bookkeeping.
- Exception messages and positions are not kept: each throw is a `ParseError` value.
- Case folding is ASCII only. Culture-invariant folding of other letters is not modelled.
- The `parts.Length < 1` guards are not written as branches, because they can never fire. `FlowStep.Parts` proves that there is always a first part.
- The failure of `else`'s `Substring` is kept in the model, but `FlowStep.ElseLineIsLongEnough` shows that it cannot happen.
- The dispatcher's switch is spread over `Dispatch`, `ParseLoopOrJump` and `ParseJump`, and the `else` case over `ParseElse` and `CloseBranch`. This keeps each proof small; the order of effects is the source's.
- `ParseWhile` takes its two labels before pushing the block, where the source pushes the block first. Nothing reads either stack in between, so the final state is the same.

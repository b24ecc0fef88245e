/** The data the flow parser works on: the grammar's character constants,
    the helpers it calls but that are defined elsewhere in the parser, an
    abstract form of the CodeDom tree it emits, its blocks and labels, and
    its parse errors. */
module Syntax {

  /** The character constants the flow parser names. Their values are
      defined elsewhere in the parser; the model keeps them abstract. */
  datatype Grammar = Grammar(
    multicast: char,
    parenOpen: char,
    blockOpen: char,
    resolve: char,
    not: char,
    equal: char,
    greater: char,
    less: char,
    stringBound: char,
    spaces: set<char>)

  /** Parser helpers that live in other files of the parser, taken as given
      total functions: IsIdentifier, char.IsLetterOrDigit, IsSpace,
      StripCommentSingle, IsPrimativeObject (its success flag) and
      SplitCommandParameters. */
  datatype Helpers = Helpers(
    isIdentifier: char -> bool,
    isLetterOrDigit: char -> bool,
    isSpace: char -> bool,
    stripCommentSingle: string -> string,
    isPrimitive: string -> bool,
    splitCommandParameters: string -> seq<string>)

  /** The three ways the grammar's classes of characters do not overlap in
      the real parser: spaces, operator characters and name characters
      (identifier characters and Resolve) are pairwise disjoint. Only the
      lemmas that re-read synthesized text need this. */
  predicate Separated(g: Grammar, h: Helpers) {
    (forall c :: h.isSpace(c) ==> !IsNameChar(g, h, c) && !IsOperatorChar(g, c)) &&
    (forall c :: IsOperatorChar(g, c) ==> !IsNameChar(g, h, c))
  }

  /** A character ParseInequality takes into the left-hand name. */
  predicate IsNameChar(g: Grammar, h: Helpers, c: char) {
    h.isIdentifier(c) || c == g.resolve
  }

  /** A member of the comparator array { Equal, Not, Greater, Less }. */
  predicate IsOperatorChar(g: Grammar, c: char) {
    c == g.equal || c == g.not || c == g.greater || c == g.less
  }

  /** The value of a CodePrimitiveExpression. */
  datatype Value =
    | BoolValue(b: bool)
    | NullValue
    | IntValue(i: int)
    | EmptyArguments              // new object[] { }
    | LiteralOf(text: string)     // the object IsPrimativeObject recognised in `text`

  /** The fixed iteration capabilities of InternalMethods. */
  datatype LoopFlavor = Generic | Read | Parse | Registry

  datatype Callee =
    | IfElseTest                  // InternalMethods.IfElse
    | LoopOf(flavor: LoopFlavor)  // InternalMethods.Loop / LoopRead / LoopParse / LoopRegistry
    | LocalMethod(name: string)   // LocalMethodInvoke(name)

  /** CodeExpression, abstractly. The results of the external parsers are
      symbolic: SingleExpression(t) stands for ParseSingleExpression(t) and
      CommandParameter(t) for ParseCommandParameter(t). */
  datatype Expr =
    | Null
    | Primitive(value: Value)
    | SingleExpression(text: string)
    | CommandParameter(text: string)
    | Invoke(callee: Callee, args: seq<Expr>)
    | GetEnumerator(source: Expr)
    | MoveNext(enumerator: nat)

  /** A CodeStatementCollection, identified by the order of its creation. */
  datatype Sink = Sink(id: nat)

  /** CodeStatement, abstractly. Labels are the numbers InternalID hands out. */
  datatype Stmt =
    | Condition(test: Expr, trueStatements: Sink, falseStatements: Sink)
    | Iteration(init: Stmt, increment: Option<Stmt>, test: Expr, body: Sink)
    | DeclareEnumerable(name: nat, initExpression: Expr)
    | Comment(text: string)
    | ExpressionStatement(expr: Expr)
    | Return(value: Option<Expr>)
    | Goto(target: nat)
    | Labeled(target: nat)

  datatype Option<T> = None | Some(value: T)

  /** One source statement; its code is reassigned by `else`. */
  class CodeLine {
    const fileName: string
    const lineNumber: int
    var code: string

    constructor (fileName: string, lineNumber: int, code: string)
      ensures this.fileName == fileName && this.lineNumber == lineNumber && this.code == code
    {
      this.fileName := fileName;
      this.lineNumber := lineNumber;
      this.code := code;
    }
  }

  datatype BlockKind = IfElse | Loop

  /** Within: delimited by braces; Expect: the next statement is the body. */
  datatype BlockType = Within | Expect

  /** CodeBlock: an open block and the collection its statements go to. */
  datatype Block = Block(line: CodeLine, scope: string, sink: Sink, kind: BlockKind, blockType: BlockType)

  /** BreakLabels: the jump targets of one loop. */
  datatype BreakLabels = BreakLabels(breakLabel: nat, continueLabel: nat)

  /** The ParseExceptions the flow parser throws, and the index errors its
      unguarded reads of parts[1] and parts[1][0] raise. */
  datatype ParseError =
    | IndexOutOfRange             // parts[1] or parts[1][0] does not exist
    | DanglingElse                // "Else with no preceeding if block"
    | LoopTypeNeedsArgument       // "Loop type must have an argument"
    | ArgumentNotRequired         // ExFlowArgNotReq
    | BreakOutsideLoop            // "Cannot break outside a loop"
    | ContinueOutsideLoop         // "Cannot continue outside a loop"
    | EntryPointReturnValue       // "Cannot have return parameter for entry point method"
    | Unexpected                  // ExUnexpected
    | SubstringOutOfRange         // Substring past the end of the text
    | NullArgument                // ArgumentNullException from adding a null expression

  datatype Result<T> = Ok(value: T) | Err(error: ParseError)
}

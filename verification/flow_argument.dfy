/** The "Flow argument" region of the flow parser: classifying a condition
    as a full expression or legacy shorthand (IsExpression), parsing a
    condition with an optional trailing brace (ParseFlowParameter), and
    rewriting `name OP literal` shorthand into an expression text
    (ParseInequality). */
module FlowArgument {
  import opened Text
  import opened Syntax

  const AndTxt := "and"
  const OrTxt := "or"
  const NotTxt := "not"

  // ---------------------------------------------------------------------
  // IsExpression

  /** Some ParenOpen at or after `i` is preceded, from `i` on, only by
      identifier characters. */
  ghost predicate ParenBeforeNonIdentifier(g: Grammar, h: Helpers, s: string, i: nat) {
    exists k :: i <= k < |s| && s[k] == g.parenOpen &&
      forall j :: i <= j < k ==> h.isIdentifier(s[j])
  }

  /** The foreach over the characters of the condition from index `i`:
      true at the first ParenOpen, false at the first non-identifier. */
  function ScanForParen(g: Grammar, h: Helpers, code: string, i: nat): (r: bool)
    requires i <= |code|
    ensures r <==> ParenBeforeNonIdentifier(g, h, code, i)
    decreases |code| - i
  {
    if i == |code| then false
    else if code[i] == g.parenOpen then true
    else if !h.isIdentifier(code[i]) then false
    else
      var r := ScanForParen(g, h, code, i + 1);
      assert r ==> ParenBeforeNonIdentifier(g, h, code, i) by {
        if r {
          var k :| i + 1 <= k < |code| && code[k] == g.parenOpen &&
            forall j :: i + 1 <= j < k ==> h.isIdentifier(code[j]);
          assert forall j :: i <= j < k ==> h.isIdentifier(code[j]);
        }
      }
      r
  }

  /** Full expression (true) or legacy shorthand (false). The logical-word
      test compares the whole condition, because Split(Spaces, 1) returns
      its input as the only piece. */
  function IsExpression(g: Grammar, h: Helpers, code: string): (r: bool)
    requires |code| > 0
    ensures r <==>
      code[0] == g.parenOpen ||
      (!h.isIdentifier(code[0]) && !h.isLetterOrDigit(code[0])) ||
      Lower(code) in {AndTxt, OrTxt, NotTxt} ||
      ParenBeforeNonIdentifier(g, h, code, 0)
  {
    var sym := code[0];
    if sym == g.parenOpen then true
    else if !h.isIdentifier(sym) && !h.isLetterOrDigit(sym) then true
    else
      var word := Split(code, g.spaces, 1)[0];
      if Lower(word) in {AndTxt, OrTxt, NotTxt} then true
      else ScanForParen(g, h, code, 0)
  }

  /** A text of identifier characters without ParenOpen, other than the
      three logical words, is legacy shorthand. */
  lemma IdentifierTextIsShorthand(g: Grammar, h: Helpers, code: string)
    requires |code| > 0
    requires forall i :: 0 <= i < |code| ==> h.isIdentifier(code[i]) && code[i] != g.parenOpen
    requires Lower(code) !in {AndTxt, OrTxt, NotTxt}
    ensures !IsExpression(g, h, code)
  {
  }

  /** A logical word followed by more text is not recognised as one: with
      `and` made of identifier characters and a space that is not one,
      `and x` is classified as shorthand. */
  lemma {:induction false} LogicalWordWithOperandIsShorthand(g: Grammar, h: Helpers, space: char, rest: string)
    requires h.isIdentifier('a') && h.isIdentifier('n') && h.isIdentifier('d')
    requires g.parenOpen !in {'a', 'n', 'd', space}
    requires !h.isIdentifier(space)
    ensures !IsExpression(g, h, AndTxt + [space] + rest)
  {
    var code := AndTxt + [space] + rest;
    assert code[0] == 'a' && code[1] == 'n' && code[2] == 'd' && code[3] == space;
    assert |Lower(code)| == |code| > 3;
    forall k | 0 <= k < |code| && code[k] == g.parenOpen
      ensures !(forall j :: 0 <= j < k ==> h.isIdentifier(code[j]))
    {
      assert 3 < k && !h.isIdentifier(code[3]);
    }
  }

  // ---------------------------------------------------------------------
  // ParseInequality

  /** The index after the run of IsSpace characters starting at `i`. */
  function SkipSpaces(h: Helpers, s: string, i: nat): (j: nat)
    requires i <= |s|
    ensures i <= j <= |s|
    ensures forall k :: i <= k < j ==> h.isSpace(s[k])
    ensures j == |s| || !h.isSpace(s[j])
    decreases |s| - i
  {
    if i < |s| && h.isSpace(s[i]) then SkipSpaces(h, s, i + 1) else i
  }

  /** The index after the run of name characters starting at `i`. */
  function NameEnd(g: Grammar, h: Helpers, s: string, i: nat): (j: nat)
    requires i <= |s|
    ensures i <= j <= |s|
    ensures forall k :: i <= k < j ==> IsNameChar(g, h, s[k])
    ensures j == |s| || !IsNameChar(g, h, s[j])
    decreases |s| - i
  {
    if i < |s| && IsNameChar(g, h, s[i]) then NameEnd(g, h, s, i + 1) else i
  }

  /** The expression text ParseInequality hands to ParseSingleExpression:
      the leading name, then either `Not Equal StringBound StringBound`
      when nothing follows, or the one- or two-character comparator and the
      rest of the line, verbatim, between StringBounds. */
  function InequalityText(g: Grammar, h: Helpers, code: string): (r: Result<string>)
    ensures r.Err? ==> r.error == Unexpected
    ensures r.Ok? ==> |r.value| >= 2 && r.value[|r.value| - 1] == g.stringBound
  {
    var i := SkipSpaces(h, code, 0);
    var j := NameEnd(g, h, code, i);
    var k := SkipSpaces(h, code, j);
    if k == |code| then
      Ok(code[i..j] + [g.not, g.equal, g.stringBound, g.stringBound])
    else if !IsOperatorChar(g, code[k]) then
      Err(Unexpected)
    else
      var m := if k + 1 < |code| && IsOperatorChar(g, code[k + 1]) then k + 2 else k + 1;
      var n := SkipSpaces(h, code, m);
      Ok(code[i..j] + code[k..m] + [g.stringBound] + code[n..] + [g.stringBound])
  }

  /** ParseInequality's result: the synthesized text handed to
      ParseSingleExpression, or the unexpected-character error. */
  function InequalityExpr(g: Grammar, h: Helpers, code: string): (r: Result<Expr>)
    ensures r.Err? ==> r.error == Unexpected
    ensures r.Ok? ==>
      r.value.SingleExpression? && |r.value.text| >= 2 && r.value.text[|r.value.text| - 1] == g.stringBound
  {
    match InequalityText(g, h, code)
    case Ok(t) => Ok(SingleExpression(t))
    case Err(e) => Err(e)
  }

  /** InequalityText once its three leading scans are known: nothing left. */
  lemma InequalityTextWhenBare(g: Grammar, h: Helpers, code: string, i: nat, j: nat)
    requires i <= |code| && i == SkipSpaces(h, code, 0)
    requires j <= |code| && j == NameEnd(g, h, code, i)
    requires SkipSpaces(h, code, j) == |code|
    ensures InequalityText(g, h, code) == Ok(code[i..j] + [g.not, g.equal, g.stringBound, g.stringBound])
  {
  }

  /** InequalityText once its scans are known: a comparator at `k` ending
      at `m`, and the rest starting at `n`. */
  lemma InequalityTextWhenCompared(g: Grammar, h: Helpers, code: string, i: nat, j: nat, k: nat, m: nat, n: nat)
    requires i <= |code| && i == SkipSpaces(h, code, 0)
    requires j <= |code| && j == NameEnd(g, h, code, i)
    requires k < |code| && k == SkipSpaces(h, code, j) && IsOperatorChar(g, code[k])
    requires m == if k + 1 < |code| && IsOperatorChar(g, code[k + 1]) then k + 2 else k + 1
    requires n == SkipSpaces(h, code, m)
    ensures InequalityText(g, h, code) ==
      Ok(code[i..j] + code[k..m] + [g.stringBound] + code[n..] + [g.stringBound])
  {
  }

  predicate AllSpaces(h: Helpers, s: string) {
    forall i :: 0 <= i < |s| ==> h.isSpace(s[i])
  }

  predicate AllNameChars(g: Grammar, h: Helpers, s: string) {
    forall i :: 0 <= i < |s| ==> IsNameChar(g, h, s[i])
  }

  predicate AllOperatorChars(g: Grammar, s: string) {
    forall i :: 0 <= i < |s| ==> IsOperatorChar(g, s[i])
  }

  lemma SkipSpacesTo(h: Helpers, s: string, i: nat, j: nat)
    requires i <= j <= |s|
    requires forall k :: i <= k < j ==> h.isSpace(s[k])
    requires j == |s| || !h.isSpace(s[j])
    ensures SkipSpaces(h, s, i) == j
  {
  }

  lemma NameEndTo(g: Grammar, h: Helpers, s: string, i: nat, j: nat)
    requires i <= j <= |s|
    requires forall k :: i <= k < j ==> IsNameChar(g, h, s[k])
    requires j == |s| || !IsNameChar(g, h, s[j])
    ensures NameEnd(g, h, s, i) == j
  {
  }

  /** The three leading scans of ParseInequality over a text laid out as
      spaces [0, a), name characters [a, b), spaces [b, c), then a
      character that is no space, and no name character either unless both
      the name and the spaces after it are non-empty. */
  lemma LeadingScans(g: Grammar, h: Helpers, code: string, a: nat, b: nat, c: nat)
    requires Separated(g, h)
    requires a <= b <= c <= |code|
    requires AllSpaces(h, code[..a]) && AllNameChars(g, h, code[a..b]) && AllSpaces(h, code[b..c])
    requires c == |code| || (!h.isSpace(code[c]) && ((a < b && b < c) || !IsNameChar(g, h, code[c])))
    ensures var i := SkipSpaces(h, code, 0);
      var j := NameEnd(g, h, code, i);
      code[i..j] == code[a..b] && SkipSpaces(h, code, j) == c
  {
    forall k | 0 <= k < a ensures h.isSpace(code[k]) {
      assert code[k] == code[..a][k];
    }
    forall k | a <= k < b ensures IsNameChar(g, h, code[k]) {
      assert code[k] == code[a..b][k - a];
    }
    forall k | b <= k < c ensures h.isSpace(code[k]) {
      assert code[k] == code[b..c][k - b];
    }
    if a == b {
      SkipSpacesTo(h, code, 0, c);
      NameEndTo(g, h, code, c, c);
      SkipSpacesTo(h, code, c, c);
    } else {
      SkipSpacesTo(h, code, 0, a);
      NameEndTo(g, h, code, a, b);
      SkipSpacesTo(h, code, b, c);
    }
  }

  /** `name` alone (with surrounding spaces) becomes `name Not Equal "" `,
      the test that the variable is not empty. */
  lemma {:induction false} InequalityOfBareName(g: Grammar, h: Helpers, lead: string, name: string, gap: string)
    requires Separated(g, h)
    requires AllSpaces(h, lead) && AllNameChars(g, h, name) && AllSpaces(h, gap)
    ensures InequalityText(g, h, lead + name + gap) ==
      Ok(name + [g.not, g.equal, g.stringBound, g.stringBound])
  {
    var code := lead + name + gap;
    var a, b := |lead|, |lead| + |name|;
    assert code[..a] == lead && code[a..b] == name && code[b..] == gap;
    LeadingScans(g, h, code, a, b, |code|);
  }

  /** The comparator scan and the following space scan over a text that
      holds a comparator `op` on [c, d), spaces on [d, e) and `rest` from
      `e` on. */
  lemma ComparatorScan(g: Grammar, h: Helpers, code: string, c: nat, d: nat, e: nat)
    requires Separated(g, h)
    requires c < d <= e <= |code| && d <= c + 2
    requires AllOperatorChars(g, code[c..d]) && AllSpaces(h, code[d..e])
    requires e == |code| ||
      (!h.isSpace(code[e]) && (d == c + 2 || d < e || !IsOperatorChar(g, code[e])))
    ensures IsOperatorChar(g, code[c])
    ensures d == if c + 1 < |code| && IsOperatorChar(g, code[c + 1]) then c + 2 else c + 1
    ensures SkipSpaces(h, code, d) == e
  {
    assert code[c] == code[c..d][0];
    if d == c + 2 {
      assert code[c + 1] == code[c..d][1];
    } else if d < e {
      assert code[d] == code[d..e][0];
    }
    forall k | d <= k < e ensures h.isSpace(code[k]) {
      assert code[k] == code[d..e][k - d];
    }
    SkipSpacesTo(h, code, d, e);
  }

  /** `name op literal` becomes `name op "literal"`: the comparator is kept
      and the rest of the line, after the spaces that follow the comparator,
      is quoted verbatim. */
  lemma {:induction false} InequalityOfComparison(g: Grammar, h: Helpers, lead: string, name: string, gap: string,
                                                  op: string, gap2: string, rest: string)
    requires Separated(g, h)
    requires AllSpaces(h, lead) && AllNameChars(g, h, name) && AllSpaces(h, gap)
    requires 1 <= |op| <= 2 && AllOperatorChars(g, op)
    requires AllSpaces(h, gap2)
    requires rest == [] ||
      (!h.isSpace(rest[0]) && (|op| == 2 || gap2 != [] || !IsOperatorChar(g, rest[0])))
    ensures InequalityText(g, h, lead + name + gap + op + gap2 + rest) ==
      Ok(name + op + [g.stringBound] + rest + [g.stringBound])
  {
    var p2 := lead + name;
    var p3 := p2 + gap;
    var p4 := p3 + op;
    var p5 := p4 + gap2;
    var code := p5 + rest;
    var a, b, c, d, e := |lead|, |p2|, |p3|, |p4|, |p5|;
    assert code[..e] == p5 && code[e..] == rest;
    assert p5[..d] == p4 && p5[d..] == gap2;
    assert p4[..c] == p3 && p4[c..] == op;
    assert p3[..b] == p2 && p3[b..] == gap;
    assert p2[..a] == lead && p2[a..] == name;
    assert code[..a] == lead && code[a..b] == name && code[b..c] == gap;
    assert code[c..d] == op && code[d..e] == gap2;
    assert e < |code| ==> code[e] == rest[0];
    assert code[c] == op[0];
    ComparatorScan(g, h, code, c, d, e);
    LeadingScans(g, h, code, a, b, c);
    var i := SkipSpaces(h, code, 0);
    var j := NameEnd(g, h, code, i);
    InequalityTextWhenCompared(g, h, code, i, j, c, d, e);
  }

  /** Any character after the name and its spaces that starts no
      comparator is rejected: punctuation, and also a word after a gap, as
      in `x y` or `var in list`. */
  lemma {:induction false} InequalityRejects(g: Grammar, h: Helpers, lead: string, name: string, gap: string,
                                             c: char, rest: string)
    requires Separated(g, h)
    requires AllSpaces(h, lead) && AllNameChars(g, h, name) && AllSpaces(h, gap)
    requires !h.isSpace(c) && !IsOperatorChar(g, c)
    requires (name != [] && gap != []) || !IsNameChar(g, h, c)
    ensures InequalityText(g, h, lead + name + gap + [c] + rest) == Err(Unexpected)
  {
    var code := lead + name + gap + [c] + rest;
    var a, b := |lead|, |lead| + |name|;
    var k := b + |gap|;
    assert code[k] == c;
    assert code[..a] == lead && code[a..b] == name && code[b..k] == gap;
    LeadingScans(g, h, code, a, b, k);
  }

  /** `while (i < code.Length && IsSpace(code[i])) i++;` */
  method SkipSpacesLoop(h: Helpers, code: string, from: nat) returns (i: nat)
    requires from <= |code|
    ensures i == SkipSpaces(h, code, from)
  {
    i := from;
    while i < |code| && h.isSpace(code[i])
      invariant from <= i <= |code|
      invariant SkipSpaces(h, code, i) == SkipSpaces(h, code, from)
    {
      i := i + 1;
    }
  }

  /** `while (i < code.Length && (IsIdentifier(code[i]) || code[i] == Resolve))
      buf.Append(code[i++]);` from an empty buffer. */
  method AppendName(g: Grammar, h: Helpers, code: string, from: nat) returns (i: nat, buf: string)
    requires from <= |code|
    ensures i == NameEnd(g, h, code, from) && buf == code[from..i]
  {
    i, buf := from, "";
    while i < |code| && IsNameChar(g, h, code[i])
      invariant from <= i <= |code|
      invariant NameEnd(g, h, code, i) == NameEnd(g, h, code, from)
      invariant buf == code[from..i]
    {
      buf := buf + [code[i]];
      i := i + 1;
    }
  }

  /** The comparator branch of ParseInequality, from the comparator at `i`:
      append the one or two comparator characters, a StringBound, the rest
      after the spaces that follow, and a closing StringBound. */
  method AppendComparison(g: Grammar, h: Helpers, code: string, i: nat, buf: string) returns (out: string)
    requires i < |code| && IsOperatorChar(g, code[i])
    ensures var m := if i + 1 < |code| && IsOperatorChar(g, code[i + 1]) then i + 2 else i + 1;
      out == buf + code[i..m] + [g.stringBound] + code[SkipSpaces(h, code, m)..] + [g.stringBound]
  {
    var j := i;
    out := buf + [code[j]];
    j := j + 1;
    if j < |code| && IsOperatorChar(g, code[j]) {
      out := out + [code[j]];
      j := j + 1;
    }
    ghost var opEnd := j;
    assert out == buf + code[i..opEnd];
    out := out + [g.stringBound];

    j := SkipSpacesLoop(h, code, j);
    ghost var restStart := j;
    if j < |code| {
      out := out + code[j..];
    }
    j := SkipSpacesLoop(h, code, j);
    out := out + [g.stringBound];
    assert out == buf + code[i..opEnd] + [g.stringBound] + code[restStart..] + [g.stringBound];
  }

  /** ParseInequality: loops over index `i` that append to a buffer. */
  method ParseInequality(g: Grammar, h: Helpers, code: string) returns (r: Result<Expr>)
    ensures r == InequalityExpr(g, h, code)
  {
    var i := SkipSpacesLoop(h, code, 0);
    ghost var start := i;
    var buf;
    i, buf := AppendName(g, h, code, i);
    ghost var nameEnd := i;
    ghost var name := buf;

    i := SkipSpacesLoop(h, code, i);

    if i == |code| {
      buf := buf + [g.not];
      buf := buf + [g.equal];
      buf := buf + [g.stringBound];
      buf := buf + [g.stringBound];
      assert buf == name + [g.not, g.equal, g.stringBound, g.stringBound];
      InequalityTextWhenBare(g, h, code, start, nameEnd);
    } else {
      if !IsOperatorChar(g, code[i]) {
        return Err(Unexpected);
      }
      buf := AppendComparison(g, h, code, i, buf);
      var m := if i + 1 < |code| && IsOperatorChar(g, code[i + 1]) then i + 2 else i + 1;
      InequalityTextWhenCompared(g, h, code, start, nameEnd, i, m, SkipSpaces(h, code, m));
    }
    return Ok(SingleExpression(buf));
  }

  // ---------------------------------------------------------------------
  // ParseFlowParameter

  /** The condition handed back and the out-flag blockOpen. */
  datatype FlowParameter = FlowParameter(condition: Expr, blockOpen: bool)

  /** ParseFlowParameter(code, inequality, out blockOpen). An empty
      condition yields a null expression. A full expression loses a
      trailing BlockOpen, which sets blockOpen. Shorthand loses its trailing
      comment and goes to the inequality synthesizer, or must be a literal. */
  function ParseFlowParameter(g: Grammar, h: Helpers, code: string, inequality: bool): (r: Result<FlowParameter>)
    ensures var t := Trim(code, g.spaces);
      (t == [] ==> r == Ok(FlowParameter(Null, false))) &&
      (r.Ok? ==> (r.value.condition == Null <==> t == [])) &&
      (r.Ok? && r.value.blockOpen <==> t != [] && IsExpression(g, h, t) && t[|t| - 1] == g.blockOpen) &&
      (r.Ok? && r.value.blockOpen ==> r.value.condition == SingleExpression(t[..|t| - 1])) &&
      (t != [] && IsExpression(g, h, t) ==> r.Ok?) &&
      (t != [] && IsExpression(g, h, t) && t[|t| - 1] != g.blockOpen ==>
        r == Ok(FlowParameter(SingleExpression(t), false))) &&
      (t != [] && !IsExpression(g, h, t) && inequality ==>
        InequalityExpr(g, h, h.stripCommentSingle(t)).Ok? == r.Ok? &&
        (r.Ok? ==> r.value.condition == InequalityExpr(g, h, h.stripCommentSingle(t)).value)) &&
      (t != [] && !IsExpression(g, h, t) && !inequality ==>
        var u := h.stripCommentSingle(t);
        r == if h.isPrimitive(u) then Ok(FlowParameter(Primitive(LiteralOf(u)), false)) else Err(Unexpected))
  {
    var code := Trim(code, g.spaces);
    if |code| == 0 then
      Ok(FlowParameter(Null, false))
    else if IsExpression(g, h, code) then
      var l := |code| - 1;
      if |code| > 0 && code[l] == g.blockOpen then
        Ok(FlowParameter(SingleExpression(code[..l]), true))
      else
        Ok(FlowParameter(SingleExpression(code), false))
    else
      var code := h.stripCommentSingle(code);
      if inequality then
        match InequalityExpr(g, h, code)
        case Ok(e) => Ok(FlowParameter(e, false))
        case Err(e) => Err(e)
      else if h.isPrimitive(code) then
        Ok(FlowParameter(Primitive(LiteralOf(code)), false))
      else
        Err(Unexpected)
  }
}

/** The .NET string primitives the flow parser relies on: case mapping,
    trimming a set of characters, and Split with a piece limit.
    Case mapping is ASCII-only; culture-invariant Unicode folding is not
    modelled. */
module Text {

  /** ToLowerInvariant on one character, restricted to ASCII. */
  function LowerChar(c: char): char {
    if 'A' <= c <= 'Z' then (c as int - 'A' as int + 'a' as int) as char else c
  }

  /** ToUpperInvariant on one character, restricted to ASCII. */
  function UpperChar(c: char): char {
    if 'a' <= c <= 'z' then (c as int - 'a' as int + 'A' as int) as char else c
  }

  function Lower(s: string): string {
    seq(|s|, i requires 0 <= i < |s| => LowerChar(s[i]))
  }

  function Upper(s: string): string {
    seq(|s|, i requires 0 <= i < |s| => UpperChar(s[i]))
  }

  /** Equals(..., StringComparison.OrdinalIgnoreCase) on ASCII text. */
  predicate EqualsIgnoreCase(s: string, t: string) {
    Lower(s) == Lower(t)
  }

  /** The length of the longest prefix of `s` made of characters in `cs`. */
  function LeadingRun(s: string, cs: set<char>): (k: nat)
    ensures k <= |s|
    ensures forall i :: 0 <= i < k ==> s[i] in cs
    ensures k == |s| || s[k] !in cs
  {
    if |s| > 0 && s[0] in cs then 1 + LeadingRun(s[1..], cs) else 0
  }

  /** TrimStart(chars): drop the longest prefix made of characters in `cs`. */
  function TrimStart(s: string, cs: set<char>): (r: string)
    ensures |r| <= |s| && r == s[|s| - |r|..]
    ensures forall i :: 0 <= i < |s| - |r| ==> s[i] in cs
    ensures r == [] || r[0] !in cs
  {
    s[LeadingRun(s, cs)..]
  }

  /** TrimEnd(chars): drop the longest suffix made of characters in `cs`. */
  function TrimEnd(s: string, cs: set<char>): (r: string)
    ensures |r| <= |s| && r == s[..|r|]
    ensures forall i :: |r| <= i < |s| ==> s[i] in cs
    ensures r == [] || r[|r| - 1] !in cs
  {
    if |s| > 0 && s[|s| - 1] in cs then TrimEnd(s[..|s| - 1], cs) else s
  }

  /** Trim(chars): both ends. */
  function Trim(s: string, cs: set<char>): (r: string)
    ensures r == [] || (r[0] !in cs && r[|r| - 1] !in cs)
    ensures |r| <= |s|
    ensures s == [] || (s[0] !in cs && s[|s| - 1] !in cs) ==> r == s
  {
    TrimEnd(TrimStart(s, cs), cs)
  }

  /** The index of the first character of `s` that is in `cs`, or |s| when
      there is none (where IndexOfAny / IndexOf answer -1). */
  function IndexOfAny(s: string, cs: set<char>): (k: nat)
    ensures k <= |s|
    ensures forall i :: 0 <= i < k ==> s[i] !in cs
    ensures k < |s| ==> s[k] in cs
  {
    if |s| == 0 || s[0] in cs then 0 else 1 + IndexOfAny(s[1..], cs)
  }

  /** String.Split(separators, count): at most `count` pieces; the last piece
      is the unsplit remainder. Split without a count behaves as
      Split(separators, |s| + 1), since `s` has at most |s| separators. */
  function Split(s: string, separators: set<char>, count: nat): (r: seq<string>)
    requires count >= 1
    ensures 1 <= |r| <= count
    ensures count == 1 ==> r == [s]
    ensures count >= 2 ==> r[0] == s[..IndexOfAny(s, separators)]
    ensures count == 2 && |r| == 2 ==>
      var k := |r[0]|; k < |s| && s[k] in separators && r[1] == s[k + 1..]
    decreases count
  {
    var k := IndexOfAny(s, separators);
    if count == 1 || k == |s| then [s]
    else [s[..k]] + Split(s[k + 1..], separators, count - 1)
  }

  /** A suffix, less its first n characters, then a suffix of that, is a
      suffix of the whole. */
  lemma SuffixOfDroppedSuffix(s: string, t: string, n: nat, x: string, r: string)
    requires |t| <= |s| && t == s[|s| - |t|..]
    requires n <= |t| && x == t[n..]
    requires |r| <= |x| && r == x[|x| - |r|..]
    ensures |r| + n <= |s| && r == s[|s| - |r|..]
  {
    var i, k := |s| - |t|, |x| - |r|;
    calc {
      r;
      x[k..];
      t[n..][k..];
      t[n + k..];
      s[i..][n + k..];
      s[i + n + k..];
    }
  }

  /** Trimming, dropping n characters and trimming again leaves a suffix
      at least n shorter. */
  lemma TrimDropTrimIsSuffix(code: string, cs: set<char>, n: nat)
    requires |TrimStart(code, cs)| >= n
    ensures var rest := TrimStart(TrimStart(code, cs)[n..], cs);
      |rest| + n <= |code| && rest == code[|code| - |rest|..]
  {
    var t := TrimStart(code, cs);
    SuffixOfDroppedSuffix(code, t, n, t[n..], TrimStart(t[n..], cs));
  }
}

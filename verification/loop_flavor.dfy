/** The `loop` construct's iteration source: the flavor switch over a
    leading word, and the call to the chosen InternalMethods capability with
    one ParseCommandParameter argument per piece of SplitCommandParameters. */
module LoopFlavors {
  import opened Text
  import opened Syntax

  /** int.MaxValue, the count of the argument-less generic loop. */
  const IntMaxValue: int := 0x7FFF_FFFF

  /** The registry root names that select the registry flavor. */
  const RegistryRoots: seq<string> := [
    "HKEY_LOCAL_MACHINE", "HKLM",
    "HKEY_USERS", "HKU",
    "HKEY_CURRENT_USER", "HKCU",
    "HKEY_CLASSES_ROOT", "HKCR",
    "HKEY_CURRENT_CONFIG", "HKCC"]

  /** The switch on the upper-cased word. It is exhaustive and its cases do
      not overlap: READ, PARSE and the registry names select a flavor of
      their own; every other word selects the generic loop. */
  function LoopFlavorOf(word: string): (f: LoopFlavor)
    ensures f == Read <==> word == "READ"
    ensures f == Parse <==> word == "PARSE"
    ensures f == Registry <==> word in RegistryRoots
    ensures f == Generic <==> word != "READ" && word != "PARSE" && word !in RegistryRoots
  {
    if word == "READ" then Read
    else if word == "PARSE" then Parse
    else if word in RegistryRoots then Registry
    else Generic
  }

  /** The registry flavor is selected by exactly ten distinct names. */
  lemma RegistryRootNames()
    ensures |RegistryRoots| == 10
    ensures forall i, j :: 0 <= i < j < |RegistryRoots| ==> RegistryRoots[i] != RegistryRoots[j]
  {
  }

  /** The iterator call built from the pieces of SplitCommandParameters. */
  function CommandParameters(h: Helpers, args: string): seq<Expr> {
    var pieces := h.splitCommandParameters(args);
    seq(|pieces|, i requires 0 <= i < |pieces| => CommandParameter(pieces[i]))
  }

  /** The iteration source of a `loop` line from its split parts: the flavor
      comes from parts[0]; a flavored loop keeps its arguments from the
      first Multicast on, and fails without one; a line without parts loops
      int.MaxValue times. */
  function LoopIterator(g: Grammar, h: Helpers, parts: seq<string>): (r: Result<Expr>)
    ensures |parts| == 0 ==> r == Ok(Invoke(LoopOf(Generic), [Primitive(IntValue(IntMaxValue))]))
    ensures |parts| == 1 ==> r == Err(IndexOutOfRange)
    ensures |parts| >= 2 ==>
      var flavor := LoopFlavorOf(Upper(parts[0]));
      var args := parts[1];
      var z := IndexOfAny(args, {g.multicast});
      (flavor == Generic ==> r == Ok(Invoke(LoopOf(Generic), CommandParameters(h, args)))) &&
      (flavor != Generic && g.multicast !in args ==> r == Err(LoopTypeNeedsArgument)) &&
      (flavor != Generic && g.multicast in args ==>
        z < |args| && args[z] == g.multicast &&
        r == Ok(Invoke(LoopOf(flavor), CommandParameters(h, args[z..]))))
  {
    if |parts| > 0 then
      var flavor := LoopFlavorOf(Upper(parts[0]));
      var skip := flavor != Generic;
      if |parts| < 2 then Err(IndexOutOfRange)
      else
        var args := parts[1];
        var z := IndexOfAny(args, {g.multicast});
        if skip && z == |args| then Err(LoopTypeNeedsArgument)
        else
          var args := if skip then args[z..] else args;
          Ok(Invoke(LoopOf(flavor), CommandParameters(h, args)))
    else
      Ok(Invoke(LoopOf(Generic), [Primitive(IntValue(IntMaxValue))]))
  }

  /** `foreach (string arg in SplitCommandParameters(args))
      iterator.Parameters.Add(ParseCommandParameter(arg));` */
  method ParseCommandParameters(h: Helpers, args: string) returns (parameters: seq<Expr>)
    ensures parameters == CommandParameters(h, args)
  {
    var pieces := h.splitCommandParameters(args);
    parameters := [];
    for i := 0 to |pieces|
      invariant |parameters| == i
      invariant forall k :: 0 <= k < i ==> parameters[k] == CommandParameter(pieces[k])
    {
      parameters := parameters + [CommandParameter(pieces[i])];
    }
  }

  /** The "Loop types" region of the `loop` case, imperatively. */
  method BuildLoopIterator(g: Grammar, h: Helpers, parts: seq<string>) returns (r: Result<Expr>)
    ensures r == LoopIterator(g, h, parts)
  {
    var skip := false;
    if |parts| > 0 {
      var flavor := LoopFlavorOf(Upper(parts[0]));
      skip := flavor != Generic;
      if |parts| < 2 {
        return Err(IndexOutOfRange);
      }
      var args := parts[1];
      if skip {
        var z := IndexOfAny(args, {g.multicast});
        if z == |args| {
          return Err(LoopTypeNeedsArgument);
        }
        args := args[z..];
      }
      var parameters := ParseCommandParameters(h, args);
      r := Ok(Invoke(LoopOf(flavor), parameters));
    } else {
      r := Ok(Invoke(LoopOf(Generic), [Primitive(IntValue(IntMaxValue))]));
    }
  }
}

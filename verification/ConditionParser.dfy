/**
 The parser as the program runs it: a stack, a collected root and a count of open
 parentheses, updated token by token.
 */
module ConditionParser {
  import opened Wrappers
  import opened Condition
  import opened ConditionText

  class Parser {
    var stack: seq<Item>
    var root: Option<Cond>
    var paren: int

    constructor ()
      ensures Now() == START
    {
      stack, root, paren := [], None, 0;
    }

    function Now(): State
      reads this
    {
      State(stack, root, paren)
    }

    /** parse_on_collect */
    method CollectItems() returns (fault: Option<Fault>)
      modifies `stack, `root
      ensures var c := Collect(old(stack), old(root));
              if c.Err? then fault == Some(c.error)
              else fault.None? && stack == c.value.stack && root == Some(c.value.root)
    {
      while stack != [] && !stack[|stack| - 1].Marker?
        invariant Collect(stack, root) == Collect(old(stack), old(root))
        decreases |stack|
      {
        var oper := stack[|stack| - 1];
        if oper.Pending? && root.Some? {
          root := Some(NewNode(oper.op, oper.left, root.value));
        } else if oper.Pending? {
          return Some(ExpectedEvent);
        } else if root.Some? {
          return Some(ExpectedOperator);
        } else {
          root := Some(NewLeaf(oper.name, oper.args));
        }
        stack := stack[..|stack| - 1];
      }
      if root.None? {
        return Some(ExpectedEvent);
      }
      return None;
    }

    /** parse_on_paren */
    method Paren(t: Token) returns (fault: Option<Fault>)
      requires t.Open? || t.Close?
      modifies this
      ensures var r := Step(old(Now()), t);
              if r.Err? then fault == Some(r.error) else fault.None? && Now() == r.value
    {
      if t.Open? {
        paren := paren + 1;
        if root.Some? || (stack != [] && stack[|stack| - 1].Match?) {
          return Some(ExpectedOperator);
        }
        stack := stack + [Marker];
      } else {
        paren := paren - 1;
        fault := CollectItems();
        if fault.Some? { return; }
        if stack == [] {
          return Some(MismatchedParens);
        }
        stack := stack[..|stack| - 1];
      }
      return None;
    }

    /** parse_on_operator, which hands words that are not operators to parse_on_operand */
    method OperatorOrOperand(t: Token) returns (fault: Option<Fault>)
      requires t.Word?
      modifies this
      ensures var r := Step(old(Now()), t);
              if r.Err? then fault == Some(r.error) else fault.None? && Now() == r.value
    {
      if !IsOperator(t) {
        fault := Operand(t);
        return;
      }
      fault := CollectItems();
      if fault.Some? { return; }
      stack := stack + [Pending(OperatorOf(t), root.value)];
      root := None;
      return None;
    }

    /** parse_on_operand */
    method Operand(t: Token) returns (fault: Option<Fault>)
      requires IsOperand(t)
      modifies `stack
      ensures var r := Step(old(Now()), t);
              if r.Err? then fault == Some(r.error) else fault.None? && Now() == r.value
    {
      if stack == [] || !stack[|stack| - 1].Match? {
        stack := stack + [Match(t.text, [])];
        return None;
      }
      var oper := stack[|stack| - 1];
      var args := oper.args + [t.text];
      stack := stack[..|stack| - 1] + [Match(oper.name, args)];
      var positional := true;
      var e := 0;
      while e < |args|
        invariant 0 <= e <= |args|
        invariant positional <==> forall i :: 0 <= i < e ==> '=' !in args[i]
        invariant Ordered(args[..e])
      {
        if '=' in args[e] {
          positional := false;
        } else if !positional {
          return Some(ExpectedVariable);
        }
        e := e + 1;
      }
      assert args[..e] == args;
      return None;
    }
  }

  /** parse_on */
  method ParseOn(tokens: seq<Token>) returns (r: Result<Cond, Fault>)
    ensures r == Parse(tokens)
  {
    hide Step, Collect;
    if tokens == [] {
      return Err(ExpectedToken);
    }
    var parser := new Parser();
    var pos := 0;
    assert tokens[0..] == tokens;
    while pos < |tokens|
      invariant 0 <= pos <= |tokens|
      invariant Run(START, tokens) == Run(parser.Now(), tokens[pos..])
      invariant fresh(parser)
    {
      var fault;
      if tokens[pos].Open? || tokens[pos].Close? {
        fault := parser.Paren(tokens[pos]);
      } else {
        fault := parser.OperatorOrOperand(tokens[pos]);
      }
      if fault.Some? {
        return Err(fault.value);
      }
      assert tokens[pos..][1..] == tokens[pos + 1..];
      pos := pos + 1;
    }
    var fault := parser.CollectItems();
    if fault.Some? {
      return Err(fault.value);
    }
    if parser.stack != [] {
      return Err(MismatchedParens);
    }
    return Ok(parser.root.value);
  }
}

/** Writing a condition back as text (event_operator_collapse, init/event_operator.c:742-866). */
module ConditionPrint {
  import opened Wrappers
  import opened Condition
  import opened ConditionText

  function Words(name: string, args: seq<string>): (r: seq<Token>)
    ensures |r| == 1 + |args| && forall i :: 0 <= i < |r| ==> r[i].Word? && !r[i].quoted
    ensures r[0].text == name && forall i :: 0 <= i < |args| ==> r[1 + i].text == args[i]
  {
    [Word(name, false)] + seq(|args|, i requires 0 <= i < |args| => Word(args[i], false))
  }

  /** The fully bracketed form. */
  function Bracketed(t: Cond): seq<Token> {
    match t
    case Leaf(name, args, _, _) => Words(name, args)
    case Node(op, _, l, r) => [Open] + Bracketed(l) + [Keyword(op)] + Bracketed(r) + [Close]
  }

  /** The bracketed form as a term of the grammar. */
  function TermOf(t: Cond): Term {
    match t
    case Leaf(name, args, _, _) => Event(Words(name, args))
    case Node(op, _, l, r) => Group(Join(One(TermOf(l)), op, TermOf(r)))
  }

  lemma {:induction false} BracketedIsTerm(t: Cond, rest: seq<Token>)
    ensures TermTokens(TermOf(t), rest) == Bracketed(t) + rest
  {
    if t.Node? {
      var right := [Keyword(t.op)] + TermTokens(TermOf(t.right), [Close] + rest);
      BracketedIsTerm(t.right, [Close] + rest);
      BracketedIsTerm(t.left, right);
      var a, b, k := Bracketed(t.left), Bracketed(t.right), [Keyword(t.op)];
      Reassociated([Open], a, k, b, [Close], rest);
      assert ExprTokens(Join(One(TermOf(t.left)), t.op, TermOf(t.right)), [Close] + rest) ==
        TermTokens(TermOf(t.left), right);
    }
  }

  lemma Reassociated<T>(a: seq<T>, b: seq<T>, c: seq<T>, d: seq<T>, e: seq<T>, rest: seq<T>)
    ensures a + (b + (c + (d + (e + rest)))) == (a + b + c + d + e) + rest
  {
  }

  /** No name or argument reads as an operator, and positional arguments come first. */
  predicate Printable(t: Cond) {
    match t
    case Leaf(name, args, _, _) => (forall w :: w in Words(name, args) ==> !IsOperator(w)) && Ordered(args)
    case Node(_, _, l, r) => Printable(l) && Printable(r)
  }

  lemma {:induction false} PrintableTerm(t: Cond)
    requires Printable(t)
    ensures ValidTerm(TermOf(t)) && TermTree(TermOf(t)) == Fresh(t)
  {
    match t
    case Leaf(name, args, _, _) =>
      var words := Words(name, args);
      assert forall i :: 0 <= i < |words| ==> words[i] in words;
      assert Texts(words[1..]) == args;
    case Node(op, _, l, r) =>
      PrintableTerm(l);
      PrintableTerm(r);
      OneTokens(TermOf(l));
      assert ExprTree(Join(One(TermOf(l)), op, TermOf(r))) == NewNode(op, Fresh(l), Fresh(r));
  }

  // ---- When printing is harmless ----

  function Operators(tokens: seq<Token>): nat {
    if tokens == [] then 0 else (if IsOperator(tokens[0]) then 1 else 0) + Operators(tokens[1..])
  }

  lemma {:induction false} OperatorsConcat(a: seq<Token>, b: seq<Token>)
    ensures Operators(a + b) == Operators(a) + Operators(b)
  {
    if a == [] {
      assert a + b == b;
    } else {
      assert (a + b)[1..] == a[1..] + b;
      OperatorsConcat(a[1..], b);
    }
  }

  lemma {:induction false} NoOperators(tokens: seq<Token>)
    ensures Operators(tokens) == 0 <==> forall w :: w in tokens ==> !IsOperator(w)
  {
    if tokens != [] {
      NoOperators(tokens[1..]);
      assert forall w :: w in tokens <==> w == tokens[0] || w in tokens[1..];
    }
  }

  function Nodes(t: Cond): nat { if t.Leaf? then 0 else 1 + Nodes(t.left) + Nodes(t.right) }

  /** Every operator of a parsed condition comes from an operator token, and every such token from an operator. */
  lemma {:induction false} OperatorsOfExpr(e: Expr, rest: seq<Token>)
    requires ValidExpr(e)
    ensures Operators(ExprTokens(e, rest)) == Nodes(ExprTree(e)) + Operators(rest)
    decreases e, 1
  {
    match e
    case One(t) => OperatorsOfTerm(t, rest);
    case Join(first, op, last) =>
      OperatorsOfTerm(last, rest);
      OperatorsConcat([Keyword(op)], TermTokens(last, rest));
      assert Operators([Keyword(op)]) == 1;
      OperatorsOfExpr(first, [Keyword(op)] + TermTokens(last, rest));
  }

  lemma {:induction false} OperatorsOfTerm(t: Term, rest: seq<Token>)
    requires ValidTerm(t)
    ensures Operators(TermTokens(t, rest)) == Nodes(TermTree(t)) + Operators(rest)
    decreases t, 0
  {
    match t
    case Event(words) =>
      OperatorsConcat(words, rest);
      NoOperators(words);
    case Group(inner) =>
      OperatorsOfExpr(inner, [Close] + rest);
      OperatorsConcat([Close], rest);
      OperatorsConcat([Open], ExprTokens(inner, [Close] + rest));
      assert Operators([Close]) == 0 && Operators([Open]) == 0;
  }

  lemma {:induction false} OperatorsOfPrint(t: Cond)
    ensures Operators(Bracketed(t)) >= Nodes(t)
    ensures Operators(Bracketed(t)) == Nodes(t) ==> NamesPlain(t)
  {
    match t
    case Leaf(name, args, _, _) => NoOperators(Words(name, args));
    case Node(op, _, l, r) =>
      OperatorsOfPrint(l);
      OperatorsOfPrint(r);
      var a, b, k := Bracketed(l), Bracketed(r), [Keyword(op)];
      OperatorsConcat([Open] + a + k + b, [Close]);
      OperatorsConcat([Open] + a + k, b);
      OperatorsConcat([Open] + a, k);
      OperatorsConcat([Open], a);
      assert Operators([Close]) == 0 && Operators([Open]) == 0 && Operators(k) == 1;
  }

  predicate NamesPlain(t: Cond) {
    match t
    case Leaf(name, args, _, _) => forall w :: w in Words(name, args) ==> !IsOperator(w)
    case Node(_, _, l, r) => NamesPlain(l) && NamesPlain(r)
  }

  predicate ArgsOrdered(t: Cond) {
    match t
    case Leaf(_, args, _, _) => Ordered(args)
    case Node(_, _, l, r) => ArgsOrdered(l) && ArgsOrdered(r)
  }

  lemma {:induction false} ParsedArgsOrdered(e: Expr)
    requires ValidExpr(e)
    ensures ArgsOrdered(ExprTree(e))
    decreases e, 1
  {
    match e
    case One(t) => ParsedTermOrdered(t);
    case Join(first, _, last) =>
      ParsedArgsOrdered(first);
      ParsedTermOrdered(last);
  }

  lemma {:induction false} ParsedTermOrdered(t: Term)
    requires ValidTerm(t)
    ensures ArgsOrdered(TermTree(t))
    decreases t, 0
  {
    if t.Group? { ParsedArgsOrdered(t.inner); }
  }

  lemma {:induction false} OrderedAndPlain(t: Cond)
    ensures ArgsOrdered(Fresh(t)) && NamesPlain(t) <==> Printable(t)
    ensures Nodes(Fresh(t)) == Nodes(t)
  {
    if t.Node? {
      OrderedAndPlain(t.left);
      OrderedAndPlain(t.right);
    }
  }

  /**
   Printing and parsing again gives back the condition, unmatched, exactly when
   no word of it is an operator keyword and its arguments are in order.
   */
  lemma PrintParse(t: Cond)
    ensures Parse(Bracketed(t)) == Ok(Fresh(t)) <==> Printable(t)
  {
    hide Parse, Bracketed, ExprTokens, ExprTree, TermTokens, TermTree, ValidExpr, ValidTerm, Printable, TermOf, Fresh,
      Operators;
    OrderedAndPlain(t);
    BracketedIsTerm(t, []);
    assert Bracketed(t) + [] == Bracketed(t);
    if Printable(t) {
      PrintableTerm(t);
      OneTokens(TermOf(t));
      ParseComplete(One(TermOf(t)));
    }
    if Parse(Bracketed(t)) == Ok(Fresh(t)) {
      var e := ParseSound(Bracketed(t));
      OperatorsOfExpr(e, []);
      NoOperators([]);
      OperatorsOfPrint(t);
      ParsedArgsOrdered(e);
    }
  }

  // ---- The stack-based printer ----

  type Stack = seq<seq<Token>>

  /** The text of a child: read off a leaf, popped from the stack for an operator. */
  function ChildText(child: Cond, stack: Stack): Option<(seq<Token>, Stack)> {
    if child.Leaf? then Some((Words(child.name, child.args), stack))
    else if stack == [] then None
    else Some((stack[|stack| - 1], stack[..|stack| - 1]))
  }

  /** One node of the traversal; None where the program would find its stack empty. */
  function Visit(node: Cond, stack: Stack): Option<Stack> {
    if node.Leaf? then Some(stack)
    else
      var right := ChildText(node.right, stack);
      if right.None? then None
      else
        var left := ChildText(node.left, right.value.1);
        if left.None? then None
        else Some(left.value.1 + [[Open] + left.value.0 + [Keyword(node.op)] + right.value.0 + [Close]])
  }

  function VisitAll(nodes: seq<Cond>, stack: Stack): Option<Stack>
    decreases |nodes|
  {
    if nodes == [] then Some(stack)
    else
      var stack' := Visit(nodes[0], stack);
      if stack'.None? then None else VisitAll(nodes[1..], stack'.value)
  }

  function Pushed(t: Cond, stack: Stack): Stack { if t.Leaf? then stack else stack + [Bracketed(t)] }

  lemma VisitCons(node: Cond, rest: seq<Cond>, stack: Stack)
    ensures VisitAll([node] + rest, stack) ==
            if Visit(node, stack).Some? then VisitAll(rest, Visit(node, stack).value) else None
  {
    assert ([node] + rest)[1..] == rest;
  }

  lemma ChildPushed(child: Cond, stack: Stack)
    ensures ChildText(child, Pushed(child, stack)) == Some((Bracketed(child), stack))
  {
    assert (stack + [Bracketed(child)])[..|stack|] == stack;
  }

  lemma {:induction false} VisitTree(t: Cond, rest: seq<Cond>, stack: Stack)
    ensures VisitAll(PostOrder(t) + rest, stack) == VisitAll(rest, Pushed(t, stack))
  {
    hide VisitAll, ChildText, Pushed;
    if t.Leaf? {
      VisitCons(t, rest, stack);
      LeafPushed(t, stack);
    } else {
      var l, r := PostOrder(t.left), PostOrder(t.right);
      assert PostOrder(t) + rest == l + (r + ([t] + rest));
      VisitTree(t.left, r + ([t] + rest), stack);
      var stack1 := Pushed(t.left, stack);
      VisitTree(t.right, [t] + rest, stack1);
      VisitCons(t, rest, Pushed(t.right, stack1));
      ChildPushed(t.right, stack1);
      ChildPushed(t.left, stack);
      LeafPushed(t, stack);
    }
  }

  lemma LeafPushed(t: Cond, stack: Stack)
    ensures t.Leaf? ==> Pushed(t, stack) == stack
    ensures t.Node? ==> Pushed(t, stack) == stack + [Bracketed(t)]
  {
  }

  /** event_operator_collapse: the stack is never found empty, and the result is the bracketed form. */
  method Collapse(t: Cond) returns (text: seq<Token>)
    ensures text == Bracketed(t)
  {
    hide VisitAll, Bracketed, PostOrder;
    var nodes := PostOrder(t);
    var stack: Stack := [];
    VisitTree(t, [], []);
    LeafPushed(t, []);
    LeafAlone(t);
    assert nodes + [] == nodes && nodes[0..] == nodes;
    NothingVisited(Pushed(t, []));
    var i := 0;
    while i < |nodes|
      invariant 0 <= i <= |nodes|
      invariant t.Leaf? ==> i == 0 && stack == []
      invariant VisitAll(nodes[i..], stack) == Some(Pushed(t, []))
    {
      var node := nodes[i];
      assert nodes[i..] == [node] + nodes[i + 1..];
      VisitCons(node, nodes[i + 1..], stack);
      if node.Leaf? {
        if node == t {
          LeafPrinted(t);
          stack := stack + [Words(t.name, t.args)];
          break;
        }
      } else {
        var right, left;
        if node.right.Node? {
          assert stack != [];
          right, stack := stack[|stack| - 1], stack[..|stack| - 1];
        } else {
          right := Words(node.right.name, node.right.args);
        }
        if node.left.Node? {
          assert stack != [];
          left, stack := stack[|stack| - 1], stack[..|stack| - 1];
        } else {
          left := Words(node.left.name, node.left.args);
        }
        stack := stack + [[Open] + left + [Keyword(node.op)] + right + [Close]];
      }
      i := i + 1;
    }
    NothingVisited(stack);
    assert stack == [Bracketed(t)];
    text := stack[0];
  }

  lemma NothingVisited(stack: Stack)
    ensures VisitAll([], stack) == Some(stack)
  {
  }

  lemma LeafAlone(t: Cond)
    ensures t.Leaf? ==> PostOrder(t) == [t]
  {
  }

  lemma LeafPrinted(t: Cond)
    requires t.Leaf?
    ensures Bracketed(t) == Words(t.name, t.args)
  {
  }
}

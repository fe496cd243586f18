/**
 The written form of conditions: the operator-stack parser of "start on" and
 "stop on" stanzas (init/parse_job.c:555-656, init/parse_job.c:720-1077), the
 grammar it accepts, and the printer that writes conditions back
 (init/event_operator.c:742-866).
 */
module ConditionText {
  import opened Wrappers
  import opened Condition

  /** A token; quoting turns an operator keyword into an ordinary word. */
  datatype Token = Open | Close | Word(text: string, quoted: bool)

  predicate IsOperator(t: Token) { t.Word? && !t.quoted && (t.text == "and" || t.text == "or") }
  predicate IsOperand(t: Token) { t.Word? && !IsOperator(t) }

  function Keyword(op: Op): Token { Word(if op.And? then "and" else "or", false) }

  function OperatorOf(t: Token): (op: Op)
    requires IsOperator(t)
    ensures Keyword(op) == t
  {
    if t.text == "and" then And else Or
  }

  datatype Fault = ExpectedToken | ExpectedEvent | ExpectedOperator | ExpectedVariable | MismatchedParens

  function NewLeaf(name: string, args: seq<string>): Cond { Leaf(name, args, false, None) }
  function NewNode(op: Op, left: Cond, right: Cond): Cond { Node(op, false, left, right) }

  /** No positional argument follows a named one. */
  predicate Ordered(args: seq<string>) {
    forall i, j :: 0 <= i < j < |args| && '=' in args[i] ==> '=' in args[j]
  }

  // ---- The grammar ----

  datatype Expr = One(term: Term) | Join(first: Expr, op: Op, last: Term)
  datatype Term = Event(words: seq<Token>) | Group(inner: Expr)

  function Texts(words: seq<Token>): (r: seq<string>)
    requires forall i :: 0 <= i < |words| ==> words[i].Word?
    ensures |r| == |words| && forall i :: 0 <= i < |r| ==> r[i] == words[i].text
  {
    seq(|words|, i requires 0 <= i < |words| => words[i].text)
  }

  predicate EventWords(words: seq<Token>) {
    && words != []
    && (forall i :: 0 <= i < |words| ==> IsOperand(words[i]))
    && Ordered(Texts(words[1..]))
  }

  predicate ValidExpr(e: Expr) {
    match e
    case One(t) => ValidTerm(t)
    case Join(first, _, last) => ValidExpr(first) && ValidTerm(last)
  }

  predicate ValidTerm(t: Term) {
    match t
    case Event(words) => EventWords(words)
    case Group(inner) => ValidExpr(inner)
  }

  /** The tokens of the expression, followed by more. */
  function ExprTokens(e: Expr, rest: seq<Token>): seq<Token> {
    match e
    case One(t) => TermTokens(t, rest)
    case Join(first, op, last) => ExprTokens(first, [Keyword(op)] + TermTokens(last, rest))
  }

  function TermTokens(t: Term, rest: seq<Token>): seq<Token> {
    match t
    case Event(words) => words + rest
    case Group(inner) => [Open] + ExprTokens(inner, [Close] + rest)
  }

  /** The tree of the expression: operators of equal precedence, associating to the left. */
  function ExprTree(e: Expr): Cond
    requires ValidExpr(e)
  {
    match e
    case One(t) => TermTree(t)
    case Join(first, op, last) => NewNode(op, ExprTree(first), TermTree(last))
  }

  function TermTree(t: Term): Cond
    requires ValidTerm(t)
  {
    match t
    case Event(words) => NewLeaf(words[0].text, Texts(words[1..]))
    case Group(inner) => ExprTree(inner)
  }

  // ---- The operator stack ----

  /** Stack items, the top one last: an open parenthesis, an operator waiting for its right child, or an event. */
  datatype Item = Marker | Pending(op: Op, left: Cond) | Match(name: string, args: seq<string>)

  datatype State = State(stack: seq<Item>, root: Option<Cond>, paren: int)

  datatype Gathering = Gathering(stack: seq<Item>, root: Cond)

  predicate TopIsMatch(stack: seq<Item>) { stack != [] && stack[|stack| - 1].Match? }

  /** parse_on_collect */
  function Collect(stack: seq<Item>, root: Option<Cond>): Result<Gathering, Fault> {
    if stack == [] || stack[|stack| - 1].Marker? then
      if root.None? then Err(ExpectedEvent) else Ok(Gathering(stack, root.value))
    else
      match stack[|stack| - 1]
      case Pending(op, left) =>
        if root.None? then Err(ExpectedEvent)
        else Collect(stack[..|stack| - 1], Some(NewNode(op, left, root.value)))
      case Match(name, args) =>
        if root.Some? then Err(ExpectedOperator)
        else Collect(stack[..|stack| - 1], Some(NewLeaf(name, args)))
  }

  /** parse_on_paren, parse_on_operator and parse_on_operand: one token. */
  function Step(s: State, t: Token): Result<State, Fault> {
    if t.Open? then
      if s.root.Some? || TopIsMatch(s.stack) then Err(ExpectedOperator)
      else Ok(State(s.stack + [Marker], s.root, s.paren + 1))
    else if t.Close? then
      var c :- Collect(s.stack, s.root);
      if c.stack == [] then Err(MismatchedParens)
      else Ok(State(c.stack[..|c.stack| - 1], Some(c.root), s.paren - 1))
    else if IsOperator(t) then
      var c :- Collect(s.stack, s.root);
      Ok(State(c.stack + [Pending(OperatorOf(t), c.root)], None, s.paren))
    else if TopIsMatch(s.stack) then
      var top := s.stack[|s.stack| - 1];
      var args := top.args + [t.text];
      if !Ordered(args) then Err(ExpectedVariable)
      else Ok(s.(stack := s.stack[..|s.stack| - 1] + [Match(top.name, args)]))
    else
      Ok(s.(stack := s.stack + [Match(t.text, [])]))
  }

  function Run(s: State, tokens: seq<Token>): Result<State, Fault>
    decreases |tokens|
  {
    if tokens == [] then Ok(s)
    else
      var s' :- Step(s, tokens[0]);
      Run(s', tokens[1..])
  }

  const START := State([], None, 0)

  /** parse_on: the loop runs at least once, then the last operator and operand are collected. */
  function Parse(tokens: seq<Token>): Result<Cond, Fault> {
    if tokens == [] then Err(ExpectedToken)
    else
      var s :- Run(START, tokens);
      var c :- Collect(s.stack, s.root);
      if c.stack != [] then Err(MismatchedParens) else Ok(c.root)
  }

  // ---- Everything in the grammar is accepted, with its tree ----

  /** An operand may start here. */
  predicate Ready(s: State) { s.root.None? && !TopIsMatch(s.stack) }

  /** A whole expression may start here. */
  predicate Bare(s: State) { s.root.None? && (s.stack == [] || s.stack[|s.stack| - 1].Marker?) }

  function PlaceTerm(s: State, t: Term): State
    requires ValidTerm(t)
  {
    match t
    case Event(words) => s.(stack := s.stack + [Match(words[0].text, Texts(words[1..]))])
    case Group(_) => s.(root := Some(TermTree(t)))
  }

  function PlaceExpr(s: State, e: Expr): State
    requires ValidExpr(e)
  {
    match e
    case One(t) => PlaceTerm(s, t)
    case Join(first, op, last) => PlaceTerm(s.(stack := s.stack + [Pending(op, ExprTree(first))]), last)
  }

  /** What may follow an operand. */
  predicate Ends(rest: seq<Token>) { rest == [] || !IsOperand(rest[0]) }

  lemma CollectPending(stack: seq<Item>, op: Op, left: Cond, root: Cond)
    ensures Collect(stack + [Pending(op, left)], Some(root)) == Collect(stack, Some(NewNode(op, left, root)))
    ensures Collect(stack + [Pending(op, left)], None) == Err(ExpectedEvent)
  {
    var all := stack + [Pending(op, left)];
    assert all[..|all| - 1] == stack;
  }

  lemma CollectMatch(stack: seq<Item>, name: string, args: seq<string>)
    ensures Collect(stack + [Match(name, args)], None) == Collect(stack, Some(NewLeaf(name, args)))
    ensures forall root :: Collect(stack + [Match(name, args)], Some(root)) == Err(ExpectedOperator)
  {
    var all := stack + [Match(name, args)];
    assert all[..|all| - 1] == stack;
  }

  lemma CollectPlacedTerm(s: State, t: Term)
    requires ValidTerm(t) && s.root.None?
    ensures Collect(PlaceTerm(s, t).stack, PlaceTerm(s, t).root) == Collect(s.stack, Some(TermTree(t)))
  {
    hide Collect;
    if t.Event? { CollectMatch(s.stack, t.words[0].text, Texts(t.words[1..])); }
  }

  lemma CollectPlaced(s: State, e: Expr)
    requires ValidExpr(e) && Bare(s)
    ensures Collect(PlaceExpr(s, e).stack, PlaceExpr(s, e).root) == Ok(Gathering(s.stack, ExprTree(e)))
  {
    hide PlaceTerm, TermTree;
    match e
    case One(t) => CollectPlacedTerm(s, t);
    case Join(first, op, last) =>
      CollectPlacedTerm(s.(stack := s.stack + [Pending(op, ExprTree(first))]), last);
      CollectPending(s.stack, op, ExprTree(first), TermTree(last));
  }

  lemma RunCons(s: State, t: Token, rest: seq<Token>)
    ensures Run(s, [t] + rest) == if Step(s, t).Ok? then Run(Step(s, t).value, rest) else Err(Step(s, t).error)
  {
    assert ([t] + rest)[1..] == rest;
  }

  lemma {:induction false} RunArguments(s: State, words: seq<Token>, k: nat, rest: seq<Token>)
    requires EventWords(words) && 1 <= k <= |words|
    ensures Run(s.(stack := s.stack + [Match(words[0].text, Texts(words[1..k]))]), words[k..] + rest)
            == Run(PlaceTerm(s, Event(words)), rest)
    decreases |words| - k
  {
    hide Run;
    if k == |words| {
      assert words[k..] + rest == rest;
      assert words[1..k] == words[1..];
    } else {
      var here := s.(stack := s.stack + [Match(words[0].text, Texts(words[1..k]))]);
      assert words[k..] + rest == [words[k]] + (words[k + 1..] + rest);
      RunCons(here, words[k], words[k + 1..] + rest);
      var args := Texts(words[1..k]) + [words[k].text];
      assert args == Texts(words[1..k + 1]);
      assert forall i :: 0 <= i < |args| ==> args[i] == Texts(words[1..])[i];
      assert here.stack[..|here.stack| - 1] == s.stack;
      RunArguments(s, words, k + 1, rest);
    }
  }

  lemma {:induction false} RunTerm(s: State, t: Term, rest: seq<Token>)
    requires ValidTerm(t) && Ready(s) && Ends(rest)
    ensures Run(s, TermTokens(t, rest)) == Run(PlaceTerm(s, t), rest)
    decreases t, 0
  {
    hide Run, Collect, PlaceExpr, ExprTokens;
    match t
    case Event(words) =>
      assert words + rest == [words[0]] + (words[1..] + rest);
      RunCons(s, words[0], words[1..] + rest);
      assert Texts(words[1..1]) == [];
      RunArguments(s, words, 1, rest);
    case Group(inner) =>
      var inside := State(s.stack + [Marker], None, s.paren + 1);
      RunCons(s, Open, ExprTokens(inner, [Close] + rest));
      RunExpr(inside, inner, [Close] + rest);
      CollectPlaced(inside, inner);
      RunCons(PlaceExpr(inside, inner), Close, rest);
      PlaceKeepsParen(inside, inner);
      assert inside.stack[..|inside.stack| - 1] == s.stack;
  }

  lemma PlaceKeepsParen(s: State, e: Expr)
    requires ValidExpr(e)
    ensures PlaceExpr(s, e).paren == s.paren
  {
  }

  lemma {:induction false} RunExpr(s: State, e: Expr, rest: seq<Token>)
    requires ValidExpr(e) && Bare(s) && Ends(rest)
    ensures Run(s, ExprTokens(e, rest)) == Run(PlaceExpr(s, e), rest)
    decreases e, 1
  {
    hide Run, Collect, PlaceTerm, TermTokens;
    match e
    case One(t) => RunTerm(s, t, rest);
    case Join(first, op, last) =>
      var more := [Keyword(op)] + TermTokens(last, rest);
      RunExpr(s, first, more);
      CollectPlaced(s, first);
      PlaceKeepsParen(s, first);
      var waiting := s.(stack := s.stack + [Pending(op, ExprTree(first))]);
      RunCons(PlaceExpr(s, first), Keyword(op), TermTokens(last, rest));
      RunTerm(waiting, last, rest);
  }

  /** Every expression of the grammar is parsed, and to its own tree. */
  lemma ParseComplete(e: Expr)
    requires ValidExpr(e)
    ensures Parse(ExprTokens(e, [])) == Ok(ExprTree(e))
  {
    ExprHasTokens(e, []);
    RunExpr(START, e, []);
    CollectPlaced(START, e);
  }

  lemma {:induction false} ExprHasTokens(e: Expr, rest: seq<Token>)
    requires ValidExpr(e)
    ensures ExprTokens(e, rest) != []
  {
    match e
    case One(t) =>
    case Join(first, op, last) => ExprHasTokens(first, [Keyword(op)] + TermTokens(last, rest));
  }

  // ---- The shape of the stack ----

  function Markers(stack: seq<Item>): nat {
    if stack == [] then 0
    else Markers(stack[..|stack| - 1]) + if stack[|stack| - 1].Marker? then 1 else 0
  }

  /** Between markers there is at most one operator, followed by at most one match. */
  predicate Shaped(stack: seq<Item>) {
    forall i :: 0 < i < |stack| ==>
      && (stack[i].Pending? ==> stack[i - 1].Marker?)
      && (stack[i].Match? || stack[i].Marker? ==> !stack[i - 1].Match?)
  }

  predicate BareStack(stack: seq<Item>) { stack == [] || stack[|stack| - 1].Marker? }

  lemma {:induction false} CollectStops(stack: seq<Item>, root: Option<Cond>)
    requires Collect(stack, root).Ok?
    ensures var below := Collect(stack, root).value.stack;
            below <= stack && BareStack(below) && Markers(below) == Markers(stack)
  {
    if !BareStack(stack) {
      var top, under := stack[|stack| - 1], stack[..|stack| - 1];
      match top
      case Pending(op, left) => CollectStops(under, Some(NewNode(op, left, root.value)));
      case Match(name, args) => CollectStops(under, Some(NewLeaf(name, args)));
    }
  }

  /** What parse_on keeps true of its stack and of its count of open parentheses. */
  lemma StepShaped(s: State, t: Token)
    requires Shaped(s.stack) && s.paren == Markers(s.stack) && Step(s, t).Ok?
    ensures var s' := Step(s, t).value;
            Shaped(s'.stack) && s'.paren == Markers(s'.stack)
  {
    hide Collect, Ordered, Markers;
    if t.Open? {
      MarkersPush(s.stack, Marker);
    } else if t.Close? {
      CollectStops(s.stack, s.root);
      var below := Collect(s.stack, s.root).value.stack;
      assert below == below[..|below| - 1] + [Marker];
      MarkersPush(below[..|below| - 1], Marker);
    } else if IsOperator(t) {
      CollectStops(s.stack, s.root);
      var c := Collect(s.stack, s.root).value;
      MarkersPush(c.stack, Pending(OperatorOf(t), c.root));
    } else if TopIsMatch(s.stack) {
      var under, top := s.stack[..|s.stack| - 1], s.stack[|s.stack| - 1];
      assert s.stack == under + [top];
      MarkersPush(under, top);
      MarkersPush(under, Match(top.name, top.args + [t.text]));
    } else {
      MarkersPush(s.stack, Match(t.text, []));
    }
  }

  lemma MarkersPush(stack: seq<Item>, top: Item)
    ensures Markers(stack + [top]) == Markers(stack) + if top.Marker? then 1 else 0
  {
    assert (stack + [top])[..|stack|] == stack;
  }

  lemma {:induction false} RunShaped(s: State, tokens: seq<Token>)
    requires Shaped(s.stack) && s.paren == Markers(s.stack) && Run(s, tokens).Ok?
    ensures var s' := Run(s, tokens).value;
            Shaped(s'.stack) && s'.paren == Markers(s'.stack)
    decreases |tokens|
  {
    hide Step, Markers;
    if tokens != [] {
      StepShaped(s, tokens[0]);
      RunShaped(Step(s, tokens[0]).value, tokens[1..]);
    }
  }

  // ---- Everything accepted is in the grammar ----

  /** A stack item together with the text it stands for. */
  datatype Mark = Bracket | Waiting(op: Op, left: Expr) | Named(words: seq<Token>)

  predicate ValidMark(m: Mark) {
    match m
    case Bracket => true
    case Waiting(_, left) => ValidExpr(left)
    case Named(words) => EventWords(words)
  }

  function ItemOf(m: Mark): Item
    requires ValidMark(m)
  {
    match m
    case Bracket => Marker
    case Waiting(op, left) => Pending(op, ExprTree(left))
    case Named(words) => Match(words[0].text, Texts(words[1..]))
  }

  function MarkTokens(m: Mark): seq<Token> {
    match m
    case Bracket => [Open]
    case Waiting(op, left) => ExprTokens(left, [Keyword(op)])
    case Named(words) => words
  }

  function StackTokens(marks: seq<Mark>): seq<Token> {
    if marks == [] then [] else StackTokens(marks[..|marks| - 1]) + MarkTokens(marks[|marks| - 1])
  }

  /** The history of a parse: what is on the stack and in the root, as parts of the grammar. */
  datatype Trail = Trail(marks: seq<Mark>, root: Option<Term>)

  function TrailTokens(tr: Trail): seq<Token> {
    StackTokens(tr.marks) + if tr.root.Some? then TermTokens(tr.root.value, []) else []
  }

  ghost predicate MarksExplain(marks: seq<Mark>, stack: seq<Item>) {
    && |marks| == |stack|
    && forall i :: 0 <= i < |marks| ==> ValidMark(marks[i]) && stack[i] == ItemOf(marks[i])
  }

  ghost predicate Explains(tr: Trail, s: State) {
    && MarksExplain(tr.marks, s.stack)
    && Shaped(s.stack)
    && (tr.root.Some? <==> s.root.Some?)
    && (s.root.Some? ==> ValidTerm(tr.root.value) && s.root.value == TermTree(tr.root.value) && !TopIsMatch(s.stack))
  }

  /** An event has been found right after a closing parenthesis: the parse can only fail. */
  predicate Doomed(s: State) { s.root.Some? && TopIsMatch(s.stack) }

  lemma DoomedStays(s: State, t: Token)
    requires Doomed(s) && Step(s, t).Ok?
    ensures Doomed(Step(s, t).value)
  {
  }

  lemma {:induction false} DoomedRun(s: State, tokens: seq<Token>)
    requires Doomed(s) && Run(s, tokens).Ok?
    ensures Doomed(Run(s, tokens).value)
    decreases |tokens|
  {
    if tokens != [] {
      DoomedStays(s, tokens[0]);
      DoomedRun(Step(s, tokens[0]).value, tokens[1..]);
    }
  }

  lemma {:induction false} ExprTokensSplit(e: Expr, rest: seq<Token>)
    ensures ExprTokens(e, rest) == ExprTokens(e, []) + rest
    decreases e, 1
  {
    match e
    case One(t) => TermTokensSplit(t, rest);
    case Join(first, op, last) =>
      TermTokensSplit(last, rest);
      ExprTokensSplit(first, [Keyword(op)] + TermTokens(last, rest));
      ExprTokensSplit(first, [Keyword(op)] + TermTokens(last, []));
      var k, a, b := [Keyword(op)], ExprTokens(first, []), TermTokens(last, []);
      assert a + (k + (b + rest)) == (a + (k + b)) + rest;
  }

  lemma {:induction false} TermTokensSplit(t: Term, rest: seq<Token>)
    ensures TermTokens(t, rest) == TermTokens(t, []) + rest
    decreases t, 0
  {
    match t
    case Event(words) => assert words + [] == words;
    case Group(inner) =>
      ExprTokensSplit(inner, [Close] + rest);
      ExprTokensSplit(inner, [Close] + []);
      assert [Open] + (ExprTokens(inner, []) + ([Close] + rest)) == [Open] + (ExprTokens(inner, []) + [Close]) + rest;
  }

  lemma StackTokensPush(marks: seq<Mark>, m: Mark)
    ensures StackTokens(marks + [m]) == StackTokens(marks) + MarkTokens(m)
  {
    assert (marks + [m])[..|marks|] == marks;
  }

  lemma StackTokensPop(marks: seq<Mark>)
    requires marks != []
    ensures StackTokens(marks) == StackTokens(marks[..|marks| - 1]) + MarkTokens(marks[|marks| - 1])
  {
  }

  /** What collecting turns into one expression. */
  lemma CollectExplained(tr: Trail, s: State) returns (below: seq<Mark>, e: Expr)
    requires Explains(tr, s) && Collect(s.stack, s.root).Ok?
    ensures ValidExpr(e)
    ensures var c := Collect(s.stack, s.root).value;
            c.root == ExprTree(e) && MarksExplain(below, c.stack) && Shaped(c.stack) && BareStack(c.stack)
    ensures TrailTokens(tr) == StackTokens(below) + ExprTokens(e, [])
  {
    if TopIsMatch(s.stack) {
      hide StackTokens, TermTokens, ValidTerm, TermTree, Texts, Collect;
      var n := |s.stack| - 1;
      var words := tr.marks[n].words;
      assert s.stack == s.stack[..n] + [s.stack[n]];
      CollectMatch(s.stack[..n], s.stack[n].name, s.stack[n].args);
      EventTerm(words);
      StackTokensPop(tr.marks);
      below, e := CollectTerm(tr.marks[..n], Event(words), s.stack[..n]);
    } else {
      hide StackTokens, TermTokens, ValidTerm, TermTree, Texts;
      below, e := CollectTerm(tr.marks, tr.root.value, s.stack);
    }
  }

  lemma OneTokens(t: Term)
    requires ValidTerm(t)
    ensures ExprTokens(One(t), []) == TermTokens(t, []) && ValidExpr(One(t)) && ExprTree(One(t)) == TermTree(t)
  {
  }

  lemma EventTerm(words: seq<Token>)
    requires EventWords(words)
    ensures ValidTerm(Event(words)) && TermTokens(Event(words), []) == words
    ensures TermTree(Event(words)) == NewLeaf(words[0].text, Texts(words[1..]))
  {
  }

  lemma CollectTerm(marks: seq<Mark>, term: Term, stack: seq<Item>) returns (below: seq<Mark>, e: Expr)
    requires MarksExplain(marks, stack) && Shaped(stack) && !TopIsMatch(stack) && ValidTerm(term)
    requires Collect(stack, Some(TermTree(term))).Ok?
    ensures ValidExpr(e)
    ensures var c := Collect(stack, Some(TermTree(term))).value;
            c.root == ExprTree(e) && MarksExplain(below, c.stack) && Shaped(c.stack) && BareStack(c.stack)
    ensures StackTokens(marks) + TermTokens(term, []) == StackTokens(below) + ExprTokens(e, [])
  {
    hide StackTokens, TermTokens, ValidTerm, TermTree, Texts;
    if BareStack(stack) {
      OneTokens(term);
      return marks, One(term);
    }
    var n := |stack| - 1;
    var m := marks[n];
    below, e := marks[..n], Join(m.left, m.op, term);
    assert BareStack(stack[..n]);
    StackTokensPop(marks);
    ExprTokensSplit(m.left, [Keyword(m.op)]);
    ExprTokensSplit(m.left, [Keyword(m.op)] + TermTokens(term, []));
    var a, b, k, t := StackTokens(below), ExprTokens(m.left, []), [Keyword(m.op)], TermTokens(term, []);
    assert (a + (b + k)) + t == a + (b + (k + t));
  }

  lemma ExplainedStep(tr: Trail, s: State, t: Token) returns (tr': Trail)
    requires Explains(tr, s) && Step(s, t).Ok? && !Doomed(Step(s, t).value)
    ensures Explains(tr', Step(s, t).value)
    ensures TrailTokens(tr') == TrailTokens(tr) + [t]
  {
    if t.Open? {
      tr' := OpenExplained(tr, s);
    } else if t.Close? {
      tr' := CloseExplained(tr, s);
    } else if IsOperator(t) {
      tr' := OperatorExplained(tr, s, t);
    } else {
      tr' := OperandExplained(tr, s, t);
    }
  }

  lemma OpenExplained(tr: Trail, s: State) returns (tr': Trail)
    requires Explains(tr, s) && Step(s, Open).Ok?
    ensures Explains(tr', Step(s, Open).value)
    ensures TrailTokens(tr') == TrailTokens(tr) + [Open]
  {
    hide StackTokens, ExprTree, Texts, Collect;
    tr' := Trail(tr.marks + [Bracket], None);
    StackTokensPush(tr.marks, Bracket);
  }

  lemma CloseExplained(tr: Trail, s: State) returns (tr': Trail)
    requires Explains(tr, s) && Step(s, Close).Ok?
    ensures Explains(tr', Step(s, Close).value)
    ensures TrailTokens(tr') == TrailTokens(tr) + [Close]
  {
    hide StackTokens, ExprTokens, ExprTree, Texts, Collect;
    var below, e := CollectExplained(tr, s);
    var n := |below| - 1;
    assert below[n] == Bracket;
    tr' := Trail(below[..n], Some(Group(e)));
    StackTokensPop(below);
    ExprTokensSplit(e, [Close] + []);
    var a, b := StackTokens(below[..n]), ExprTokens(e, []);
    assert a + [Open] + b + [Close] == a + ([Open] + (b + [Close]));
  }

  lemma OperatorExplained(tr: Trail, s: State, t: Token) returns (tr': Trail)
    requires Explains(tr, s) && IsOperator(t) && Step(s, t).Ok?
    ensures Explains(tr', Step(s, t).value)
    ensures TrailTokens(tr') == TrailTokens(tr) + [t]
  {
    hide StackTokens, ExprTokens, ExprTree, Texts, Collect;
    var below, e := CollectExplained(tr, s);
    var m := Waiting(OperatorOf(t), e);
    tr' := Trail(below + [m], None);
    StackTokensPush(below, m);
    ExprTokensSplit(e, [t]);
  }

  lemma OperandExplained(tr: Trail, s: State, t: Token) returns (tr': Trail)
    requires Explains(tr, s) && IsOperand(t) && Step(s, t).Ok? && !Doomed(Step(s, t).value)
    ensures Explains(tr', Step(s, t).value)
    ensures TrailTokens(tr') == TrailTokens(tr) + [t]
  {
    hide Explains, TrailTokens;
    if TopIsMatch(s.stack) {
      tr' := ArgumentExplained(tr, s, t);
    } else {
      tr' := NameExplained(tr, s, t);
    }
  }

  lemma NameExplained(tr: Trail, s: State, t: Token) returns (tr': Trail)
    requires Explains(tr, s) && IsOperand(t) && !TopIsMatch(s.stack) && s.root.None?
    ensures Explains(tr', Step(s, t).value)
    ensures TrailTokens(tr') == TrailTokens(tr) + [t]
  {
    hide StackTokens, ExprTree, Collect, ValidExpr;
    assert [t][1..] == [] && Texts([]) == [];
    assert EventWords([t]);
    tr' := Trail(tr.marks + [Named([t])], None);
    StackTokensPush(tr.marks, Named([t]));
  }

  lemma ArgumentExplained(tr: Trail, s: State, t: Token) returns (tr': Trail)
    requires Explains(tr, s) && IsOperand(t) && TopIsMatch(s.stack) && Step(s, t).Ok?
    ensures Explains(tr', Step(s, t).value)
    ensures TrailTokens(tr') == TrailTokens(tr) + [t]
  {
    hide StackTokens, ExprTree, Collect, ValidExpr;
    var n := |tr.marks| - 1;
    var words := tr.marks[n].words;
    var more := words + [t];
    assert more[1..] == words[1..] + [t];
    assert Texts(more[1..]) == Texts(words[1..]) + [t.text];
    tr' := Trail(tr.marks[..n] + [Named(more)], None);
    assert EventWords(more) && ItemOf(Named(more)) == Step(s, t).value.stack[n];
    StackTokensPop(tr.marks);
    StackTokensPush(tr.marks[..n], Named(more));
  }

  lemma {:induction false} ExplainedRun(tr: Trail, s: State, tokens: seq<Token>) returns (tr': Trail)
    requires Explains(tr, s) && Run(s, tokens).Ok? && !Doomed(Run(s, tokens).value)
    ensures Explains(tr', Run(s, tokens).value)
    ensures TrailTokens(tr') == TrailTokens(tr) + tokens
    decreases |tokens|
  {
    hide Step, TrailTokens, Explains;
    tr' := tr;
    if tokens != [] {
      var s1 := Step(s, tokens[0]).value;
      if Doomed(s1) { DoomedRun(s1, tokens[1..]); }
      var tr1 := ExplainedStep(tr, s, tokens[0]);
      tr' := ExplainedRun(tr1, s1, tokens[1..]);
      assert tokens == [tokens[0]] + tokens[1..];
    }
  }

  /** Whatever is parsed is an expression of the grammar, and the result is its tree. */
  lemma ParseSound(tokens: seq<Token>) returns (e: Expr)
    requires Parse(tokens).Ok?
    ensures ValidExpr(e) && ExprTokens(e, []) == tokens && ExprTree(e) == Parse(tokens).value
  {
    hide Run, Step;
    var s := Run(START, tokens).value;
    assert !Doomed(s);
    var none := Trail([], None);
    var tr := ExplainedRun(none, START, tokens);
    var below, expr := CollectExplained(tr, s);
    assert StackTokens([]) == [] && below == [];
    assert TrailTokens(none) == [];
    assert [] + tokens == tokens && [] + ExprTokens(expr, []) == ExprTokens(expr, []);
    e := expr;
  }

  /** The parser accepts exactly the token sequences of the grammar, and no sequence has two trees. */
  lemma ParseExactly(tokens: seq<Token>, t: Cond)
    ensures Parse(tokens) == Ok(t) <==> exists e :: ValidExpr(e) && ExprTokens(e, []) == tokens && ExprTree(e) == t
  {
    hide Parse, ValidExpr, ExprTokens, ExprTree;
    if Parse(tokens) == Ok(t) {
      var e := ParseSound(tokens);
    }
    if e :| ValidExpr(e) && ExprTokens(e, []) == tokens && ExprTree(e) == t {
      ParseComplete(e);
    }
  }
}

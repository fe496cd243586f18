/**
 The operator tree as the program updates it: the nodes of a condition in the
 order in which the post-order iterator visits them, each rewritten in place,
 and the blocker counts of the events they hold (init/event_operator.c:389-430,
 init/event_operator.c:649-716).
 */
module OperatorTree {
  import opened Wrappers
  import opened Condition

  datatype Entry =
    | Match(name: string, args: seq<string>, value: bool, event: Option<EventId>)
    | Operator(op: Op, value: bool, left: nat, right: nat)

  function Size(t: Cond): (n: nat)
    ensures n > 0
  {
    if t.Leaf? then 1 else Size(t.left) + Size(t.right) + 1
  }

  /** The nodes of the tree in post-order, when the first of them has index base. */
  function Flatten(t: Cond, base: nat): (entries: seq<Entry>)
    ensures |entries| == Size(t)
    ensures entries[|entries| - 1].value == t.value
  {
    match t
    case Leaf(name, args, value, event) => [Match(name, args, value, event)]
    case Node(op, value, l, r) =>
      Flatten(l, base) + Flatten(r, base + Size(l))
      + [Operator(op, value, base + Size(l) - 1, base + Size(l) + Size(r) - 1)]
  }

  lemma {:induction false} SameSize(a: Cond, b: Cond)
    requires Fresh(a) == Fresh(b)
    ensures Size(a) == Size(b)
  {
    if a.Node? {
      SameSize(a.left, b.left);
      SameSize(a.right, b.right);
    }
  }

  /** The nodes of an operator: those of its left child, those of its right child, itself. */
  lemma FlattenAt(t: Cond, base: nat, i: nat)
    requires t.Node? && i < Size(t)
    ensures var n, m := Size(t.left), Size(t.right);
            Flatten(t, base)[i] ==
            if i < n then Flatten(t.left, base)[i]
            else if i < n + m then Flatten(t.right, base + n)[i - n]
            else Operator(t.op, t.value, base + n - 1, base + n + m - 1)
  {
  }

  lemma FlattenLast(t: Cond, base: nat)
    ensures Flatten(t, base)[Size(t) - 1].value == t.value
    ensures t.Leaf? ==> Flatten(t, base) == [Match(t.name, t.args, t.value, t.event)]
  {
  }

  /** b is a, node for node, with new values and events, and every operator of b up to date. */
  ghost predicate Updated(a: Cond, b: Cond) { Fresh(a) == Fresh(b) && Settled(b) }

  /** Trees of one shape have operators at the same places, with the same children. */
  lemma {:induction false} SameLinks(a: Cond, b: Cond, base: nat, i: nat)
    requires Fresh(a) == Fresh(b) && i < Size(a)
    ensures Size(b) == Size(a)
    ensures Flatten(a, base)[i].Operator? <==> Flatten(b, base)[i].Operator?
    ensures Flatten(a, base)[i].Operator? ==>
              Flatten(b, base)[i] == Flatten(a, base)[i].(value := Flatten(b, base)[i].value)
  {
    hide Flatten;
    SameSize(a, b);
    if a.Leaf? {
      FlattenLast(a, base);
      FlattenLast(b, base);
    } else {
      SameSize(a.left, b.left);
      var n := Size(a.left);
      FlattenAt(a, base, i);
      FlattenAt(b, base, i);
      if i < n {
        SameLinks(a.left, b.left, base, i);
      } else if i < n + Size(a.right) {
        SameLinks(a.right, b.right, base + n, i - n);
      }
    }
  }

  /** In a settled tree every operator comes after its children and has their combined value. */
  lemma {:induction false} SettledLinks(t: Cond, base: nat, i: nat)
    requires Settled(t) && i < Size(t) && Flatten(t, base)[i].Operator?
    ensures var x := Flatten(t, base)[i];
            && base <= x.left < base + i && base <= x.right < base + i
            && x.value == Combined(x.op, Flatten(t, base)[x.left - base].value, Flatten(t, base)[x.right - base].value)
    decreases t, 1
  {
    hide Flatten, Combined;
    if t.Leaf? {
      FlattenLast(t, base);
    } else {
      var n, m := Size(t.left), Size(t.right);
      if i < n {
        SettledInside(t, t.left, base, 0, i);
      } else if i < n + m {
        SettledInside(t, t.right, base, n, i);
      } else {
        FlattenAt(t, base, i);
        FlattenLast(t.left, base);
        FlattenLast(t.right, base + n);
        FlattenAt(t, base, n - 1);
        FlattenAt(t, base, n + m - 1);
      }
    }
  }

  lemma {:induction false} SettledInside(t: Cond, child: Cond, base: nat, n: nat, i: nat)
    requires t.Node? && Settled(child) && n <= i < n + Size(child)
    requires (child == t.left && n == 0) || (child == t.right && n == Size(t.left))
    requires Flatten(t, base)[i].Operator?
    ensures var x := Flatten(t, base)[i];
            && base <= x.left < base + i && base <= x.right < base + i
            && x.value == Combined(x.op, Flatten(t, base)[x.left - base].value, Flatten(t, base)[x.right - base].value)
    decreases t, 0
  {
    hide Flatten, Combined, Settled;
    FlattenAt(t, base, i);
    SettledLinks(child, base + n, i - n);
    var x := Flatten(t, base)[i];
    FlattenAt(t, base, x.left - base);
    FlattenAt(t, base, x.right - base);
  }

  /** The operators among the nodes of b are those of a, with the value of their children in b. */
  lemma OperatorsUpdated(a: Cond, b: Cond, i: nat)
    requires Updated(a, b) && i < Size(a)
    ensures Size(b) == Size(a)
    ensures Flatten(a, 0)[i].Operator? <==> Flatten(b, 0)[i].Operator?
    ensures var x := Flatten(a, 0)[i];
            x.Operator? ==>
              && x.left < i && x.right < i
              && Flatten(b, 0)[i] ==
                 x.(value := Combined(x.op, Flatten(b, 0)[x.left].value, Flatten(b, 0)[x.right].value))
  {
    hide Flatten;
    SameLinks(a, b, 0, i);
    if Flatten(b, 0)[i].Operator? { SettledLinks(b, 0, i); }
  }

  predicate Takes(entry: Entry, hit: Hit) { entry.Match? && !entry.value && hit(entry.name, entry.args) }

  lemma {:induction false} MatchesHandled(t: Cond, e: EventId, hit: Hit, base: nat, i: nat)
    requires i < Size(t) && Flatten(t, base)[i].Match?
    ensures Size(Handle(t, e, hit)) == Size(t)
    ensures var x := Flatten(t, base)[i];
            Flatten(Handle(t, e, hit), base)[i] == if Takes(x, hit) then x.(value := true, event := Some(e)) else x
  {
    hide Flatten;
    var t' := Handle(t, e, hit);
    HandleShape(t, e, hit);
    SameSize(t, t');
    if t.Leaf? {
      FlattenLast(t, base);
      FlattenLast(t', base);
    } else {
      HandleShape(t.left, e, hit);
      SameSize(t.left, t'.left);
      var n := Size(t.left);
      FlattenAt(t, base, i);
      FlattenAt(t', base, i);
      if i < n {
        MatchesHandled(t.left, e, hit, base, i);
      } else {
        MatchesHandled(t.right, e, hit, base + n, i - n);
      }
    }
  }

  lemma {:induction false} HandleShape(t: Cond, e: EventId, hit: Hit)
    ensures Updated(t, Handle(t, e, hit))
  {
    if t.Node? {
      HandleShape(t.left, e, hit);
      HandleShape(t.right, e, hit);
    }
  }

  lemma {:induction false} MatchesReset(t: Cond, base: nat, i: nat)
    requires i < Size(t) && Flatten(t, base)[i].Match?
    ensures Size(Reset(t)) == Size(t)
    ensures Flatten(Reset(t), base)[i] == Flatten(t, base)[i].(value := false, event := None)
  {
    hide Flatten, Fresh;
    var t' := Reset(t);
    ResetForgets(t);
    FreshTwice(t);
    SameSize(t, t');
    if t.Leaf? {
      FlattenLast(t, base);
      FlattenLast(t', base);
    } else {
      ResetForgets(t.left);
      FreshTwice(t.left);
      SameSize(t.left, t'.left);
      var n := Size(t.left);
      FlattenAt(t, base, i);
      FlattenAt(t', base, i);
      if i < n {
        MatchesReset(t.left, base, i);
      } else {
        MatchesReset(t.right, base + n, i - n);
      }
    }
  }

  /** How many of the nodes take the event. */
  function TakenIn(entries: seq<Entry>, hit: Hit): nat {
    if entries == [] then 0
    else TakenIn(entries[..|entries| - 1], hit) + if Takes(entries[|entries| - 1], hit) then 1 else 0
  }

  lemma {:induction false} TakenInConcat(a: seq<Entry>, b: seq<Entry>, hit: Hit)
    ensures TakenIn(a + b, hit) == TakenIn(a, hit) + TakenIn(b, hit)
    decreases |b|
  {
    if b == [] {
      assert a + b == a;
    } else {
      assert (a + b)[..|a + b| - 1] == a + b[..|b| - 1];
      TakenInConcat(a, b[..|b| - 1], hit);
    }
  }

  lemma {:induction false} TakenInTree(t: Cond, hit: Hit, base: nat)
    ensures TakenIn(Flatten(t, base), hit) == Taken(t, hit)
  {
    match t
    case Leaf(name, args, value, event) =>
      assert Flatten(t, base)[..0] == [];
    case Node(op, value, l, r) =>
      var n := Size(l);
      TakenInTree(l, hit, base);
      TakenInTree(r, hit, base + n);
      TakenInConcat(Flatten(l, base), Flatten(r, base + n), hit);
      var all := Flatten(t, base);
      assert all[..|all| - 1] == Flatten(l, base) + Flatten(r, base + n);
  }

  /** The events held by a list of nodes. */
  function HeldIn(entries: seq<Entry>): seq<EventId> {
    if entries == [] then []
    else
      var x := entries[|entries| - 1];
      HeldIn(entries[..|entries| - 1]) + if x.Match? && x.event.Some? then [x.event.value] else []
  }

  lemma {:induction false} HeldInConcat(a: seq<Entry>, b: seq<Entry>)
    ensures HeldIn(a + b) == HeldIn(a) + HeldIn(b)
    decreases |b|
  {
    if b == [] {
      assert a + b == a;
    } else {
      assert (a + b)[..|a + b| - 1] == a + b[..|b| - 1];
      HeldInConcat(a, b[..|b| - 1]);
    }
  }

  lemma {:induction false} HeldInTree(t: Cond, base: nat)
    ensures HeldIn(Flatten(t, base)) == Held(t)
  {
    match t
    case Leaf(_, _, _, _) =>
      assert Flatten(t, base)[..0] == [];
    case Node(_, _, l, r) =>
      var n := Size(l);
      HeldInTree(l, base);
      HeldInTree(r, base + n);
      HeldInConcat(Flatten(l, base), Flatten(r, base + n));
      var all := Flatten(t, base);
      assert all[..|all| - 1] == Flatten(l, base) + Flatten(r, base + n);
  }

  /** No more events are held by a part of the nodes than by all of them. */
  lemma HeldPart(entries: seq<Entry>, i: nat)
    requires i <= |entries|
    ensures forall e :: multiset(HeldIn(entries[..i]))[e] <= multiset(HeldIn(entries))[e]
  {
    HeldInConcat(entries[..i], entries[i..]);
    assert entries[..i] + entries[i..] == entries;
  }

  class Tree {
    var nodes: array<Entry>

    ghost predicate Is(t: Cond)
      reads this, nodes
    {
      nodes[..] == Flatten(t, 0)
    }

    /** event_operator_handle; the blocker count of the event grows by one for each leaf that takes it. */
    method Handle(e: EventId, hit: Hit, blockers: array<nat>, ghost t: Cond) returns (matched: bool)
      requires Is(t) && e < blockers.Length
      modifies nodes, blockers
      ensures Is(Condition.Handle(t, e, hit))
      ensures matched <==> Taken(t, hit) > 0
      ensures blockers[e] == old(blockers[e]) + Taken(t, hit)
      ensures forall x :: 0 <= x < blockers.Length && x != e ==> blockers[x] == old(blockers[x])
    {
      hide Flatten, TakenIn, Condition.Handle, Fresh, Settled, Size, Taken;
      ghost var t' := Condition.Handle(t, e, hit);
      ghost var before, after := Flatten(t, 0), Flatten(t', 0);
      HandleShape(t, e, hit);
      SameSize(t, t');
      matched := false;
      NoneTaken(before, hit);
      var i := 0;
      while i < nodes.Length
        invariant 0 <= i <= nodes.Length
        invariant forall k :: 0 <= k < i ==> nodes[k] == after[k]
        invariant forall k :: i <= k < nodes.Length ==> nodes[k] == before[k]
        invariant matched <==> TakenIn(before[..i], hit) > 0
        invariant blockers[e] == old(blockers[e]) + TakenIn(before[..i], hit)
        invariant forall x :: 0 <= x < blockers.Length && x != e ==> blockers[x] == old(blockers[x])
      {
        OperatorsUpdated(t, t', i);
        TakenStep(before, i, hit);
        match nodes[i] {
          case Operator(op, _, left, right) =>
            nodes[i] := Operator(op, Combined(op, nodes[left].value, nodes[right].value), left, right);
          case Match(name, args, value, _) =>
            MatchesHandled(t, e, hit, 0, i);
            if !value && hit(name, args) {
              nodes[i] := nodes[i].(value := true, event := Some(e));
              blockers[e] := blockers[e] + 1;
              matched := true;
            }
        }
        i := i + 1;
      }
      assert before[..i] == before;
      TakenInTree(t, hit, 0);
    }

    /** event_operator_reset; each leaf gives back the block it holds. */
    method Reset(blockers: array<nat>, ghost t: Cond)
      requires Is(t) && Sound(t)
      requires forall e :: e in Held(t) ==> e < blockers.Length && multiset(Held(t))[e] <= blockers[e]
      modifies nodes, blockers
      ensures Is(Condition.Reset(t))
      ensures forall e :: 0 <= e < blockers.Length ==> blockers[e] + multiset(Held(t))[e] == old(blockers[e])
    {
      hide Flatten, HeldIn, Condition.Reset, Fresh, Settled, Size, Held, Sound;
      ghost var t' := Condition.Reset(t);
      ghost var before, after := Flatten(t, 0), Flatten(t', 0);
      ResetForgets(t);
      FreshTwice(t);
      SameSize(t, t');
      HeldInTree(t, 0);
      NoneHeld(before);
      var i := 0;
      while i < nodes.Length
        invariant 0 <= i <= nodes.Length
        invariant forall k :: 0 <= k < i ==> nodes[k] == after[k]
        invariant forall k :: i <= k < nodes.Length ==> nodes[k] == before[k]
        invariant forall e :: 0 <= e < blockers.Length ==>
                    blockers[e] + multiset(HeldIn(before[..i]))[e] == old(blockers[e])
      {
        OperatorsUpdated(t, t', i);
        HeldStep(before, i);
        match nodes[i] {
          case Operator(op, _, left, right) =>
            nodes[i] := Operator(op, Combined(op, nodes[left].value, nodes[right].value), left, right);
          case Match(_, _, _, event) =>
            MatchesReset(t, 0, i);
            if event.Some? {
              Releasable(before, i, event.value);
              assert blockers[event.value] > 0;
              blockers[event.value] := blockers[event.value] - 1;
            }
            nodes[i] := nodes[i].(value := false, event := None);
        }
        i := i + 1;
      }
      assert before[..i] == before;
    }
  }

  lemma NoneTaken(entries: seq<Entry>, hit: Hit)
    ensures TakenIn(entries[..0], hit) == 0
  {
  }

  lemma NoneHeld(entries: seq<Entry>)
    ensures HeldIn(entries[..0]) == []
  {
  }

  lemma TakenStep(entries: seq<Entry>, i: nat, hit: Hit)
    requires i < |entries|
    ensures TakenIn(entries[..i + 1], hit) == TakenIn(entries[..i], hit) + if Takes(entries[i], hit) then 1 else 0
  {
    assert entries[..i + 1][..i] == entries[..i];
  }

  lemma HeldStep(entries: seq<Entry>, i: nat)
    requires i < |entries|
    ensures HeldIn(entries[..i + 1]) ==
            HeldIn(entries[..i]) + if entries[i].Match? && entries[i].event.Some? then [entries[i].event.value] else []
  {
    assert entries[..i + 1][..i] == entries[..i];
  }

  lemma Releasable(entries: seq<Entry>, i: nat, e: EventId)
    requires i < |entries| && entries[i].Match? && entries[i].event == Some(e)
    ensures e in HeldIn(entries)
    ensures multiset(HeldIn(entries[..i]))[e] < multiset(HeldIn(entries))[e]
  {
    HeldStep(entries, i);
    HeldPart(entries, i + 1);
    assert multiset(HeldIn(entries[..i + 1]))[e] == multiset(HeldIn(entries[..i]))[e] + 1;
    assert e in multiset(HeldIn(entries));
  }
}

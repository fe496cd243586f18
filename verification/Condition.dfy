/**
 Start and stop conditions: and/or trees over event patterns whose leaves
 remember, and hold on to, the event that satisfied them (init/event_operator.c).
 */
module Condition {
  import opened Wrappers

  type EventId = nat

  datatype Op = And | Or

  datatype Cond =
    | Leaf(name: string, args: seq<string>, value: bool, event: Option<EventId>)
    | Node(op: Op, value: bool, left: Cond, right: Cond)

  /** Which patterns one event satisfies (event_operator_match). */
  type Hit = (string, seq<string>) -> bool

  /** Which event satisfies which pattern. */
  type Matches = (EventId, string, seq<string>) -> bool

  function Of(matches: Matches, e: EventId): Hit { (name, args) => matches(e, name, args) }

  /** event_operator_update */
  predicate Combined(op: Op, left: bool, right: bool) {
    if op.Or? then left || right else left && right
  }

  /** The tree with nothing matched, as parsed or after event_operator_reset. */
  function Fresh(t: Cond): Cond {
    match t
    case Leaf(name, args, _, _) => Leaf(name, args, false, None)
    case Node(op, _, l, r) => Node(op, false, Fresh(l), Fresh(r))
  }

  /** event_operator_handle */
  function Handle(t: Cond, e: EventId, hit: Hit): Cond {
    match t
    case Leaf(name, args, value, _) =>
      if !value && hit(name, args) then Leaf(name, args, true, Some(e)) else t
    case Node(op, _, l, r) =>
      var l', r' := Handle(l, e, hit), Handle(r, e, hit);
      Node(op, Combined(op, l'.value, r'.value), l', r')
  }

  /** How many leaves event_operator_handle lets take the event; it returns whether there is one. */
  function Taken(t: Cond, hit: Hit): nat {
    match t
    case Leaf(name, args, value, _) => if !value && hit(name, args) then 1 else 0
    case Node(_, _, l, r) => Taken(l, hit) + Taken(r, hit)
  }

  /** event_operator_reset */
  function Reset(t: Cond): Cond {
    match t
    case Leaf(name, args, _, _) => Leaf(name, args, false, None)
    case Node(op, _, l, r) =>
      var l', r' := Reset(l), Reset(r);
      Node(op, Combined(op, l'.value, r'.value), l', r')
  }

  /** The events the leaves hold, left to right, one entry a leaf. */
  function Held(t: Cond): seq<EventId> {
    match t
    case Leaf(_, _, _, event) => if event.Some? then [event.value] else []
    case Node(_, _, l, r) => Held(l) + Held(r)
  }

  /** The nodes of the tree in the order of the post-order iterator. */
  function PostOrder(t: Cond): seq<Cond> {
    if t.Leaf? then [t] else PostOrder(t.left) + PostOrder(t.right) + [t]
  }

  /** A leaf is true exactly when it holds an event. */
  predicate Sound(t: Cond) {
    match t
    case Leaf(_, _, value, event) => value <==> event.Some?
    case Node(_, _, l, r) => Sound(l) && Sound(r)
  }

  /** Every operator has the value of its children. */
  predicate Settled(t: Cond) {
    match t
    case Leaf(_, _, _, _) => true
    case Node(op, value, l, r) => value == Combined(op, l.value, r.value) && Settled(l) && Settled(r)
  }

  /** Every held event satisfies the pattern that holds it. */
  predicate Honest(t: Cond, matches: Matches) {
    match t
    case Leaf(name, args, _, event) => event.Some? ==> matches(event.value, name, args)
    case Node(_, _, l, r) => Honest(l, matches) && Honest(r, matches)
  }

  /**
   The events collected by the traversal that skips false nodes and everything
   below them (event_operator_events, event_operator_environment).
   */
  function Gathered(t: Cond): seq<EventId>
    requires Sound(t)
  {
    if !t.value then [] else
    match t
    case Leaf(_, _, _, event) => [event.value]
    case Node(_, _, l, r) => Gathered(l) + Gathered(r)
  }

  // ---- The formula a tree stands for ----

  /** The and/or formula under an assignment of truth values to patterns. */
  predicate Eval(t: Cond, truth: Hit) {
    match t
    case Leaf(name, args, _, _) => truth(name, args)
    case Node(op, _, l, r) => Combined(op, Eval(l, truth), Eval(r, truth))
  }

  function First(es: seq<EventId>, name: string, args: seq<string>, matches: Matches): Option<EventId> {
    if es == [] then None
    else if matches(es[0], name, args) then Some(es[0])
    else First(es[1..], name, args, matches)
  }

  /** Patterns satisfied by some event of the list. */
  function Among(es: seq<EventId>, matches: Matches): Hit {
    (name, args) => First(es, name, args, matches).Some?
  }

  lemma {:induction false} FirstFound(es: seq<EventId>, name: string, args: seq<string>, matches: Matches)
    ensures First(es, name, args, matches).Some? <==> exists e :: e in es && matches(e, name, args)
    ensures First(es, name, args, matches).Some? ==> First(es, name, args, matches).value in es
  {
    if es != [] {
      FirstFound(es[1..], name, args, matches);
      assert forall e :: e in es <==> e == es[0] || e in es[1..];
    }
  }

  lemma {:induction false} FirstOfConcat(a: seq<EventId>, b: seq<EventId>, name: string, args: seq<string>,
    matches: Matches)
    ensures First(a + b, name, args, matches) ==
            if First(a, name, args, matches).Some? then First(a, name, args, matches) else First(b, name, args, matches)
  {
    if a == [] {
      assert a + b == b;
    } else {
      assert (a + b)[1..] == a[1..] + b;
      FirstOfConcat(a[1..], b, name, args, matches);
    }
  }

  /** A sequence of events offered to the tree, oldest first. */
  function HandleAll(t: Cond, es: seq<EventId>, matches: Matches): Cond
    decreases |es|
  {
    if es == [] then t
    else Handle(HandleAll(t, es[..|es| - 1], matches), es[|es| - 1], Of(matches, es[|es| - 1]))
  }

  /** What a history of events makes of a condition: no state but the formula and the first match of each leaf. */
  function Expected(t: Cond, es: seq<EventId>, matches: Matches): Cond {
    match t
    case Leaf(name, args, _, _) =>
      var first := First(es, name, args, matches);
      Leaf(name, args, first.Some?, first)
    case Node(op, _, l, r) => Node(op, Eval(t, Among(es, matches)), Expected(l, es, matches), Expected(r, es, matches))
  }

  lemma {:induction false} ExpectedFacts(t: Cond, es: seq<EventId>, matches: Matches)
    ensures Expected(t, es, matches).value == Eval(t, Among(es, matches))
    ensures Sound(Expected(t, es, matches)) && Settled(Expected(t, es, matches))
    ensures Honest(Expected(t, es, matches), matches)
    ensures Fresh(Expected(t, es, matches)) == Fresh(t)
  {
    match t
    case Leaf(name, args, _, _) => FirstMatches(es, name, args, matches);
    case Node(_, _, l, r) =>
      ExpectedFacts(l, es, matches);
      ExpectedFacts(r, es, matches);
  }

  lemma {:induction false} FirstMatches(es: seq<EventId>, name: string, args: seq<string>, matches: Matches)
    ensures First(es, name, args, matches).Some? ==> matches(First(es, name, args, matches).value, name, args)
  {
    if es != [] { FirstMatches(es[1..], name, args, matches); }
  }

  lemma {:induction false} ExpectedOfNothing(t: Cond, matches: Matches)
    ensures Expected(t, [], matches) == Fresh(t)
    ensures !Eval(t, Among([], matches))
  {
    if t.Node? {
      ExpectedOfNothing(t.left, matches);
      ExpectedOfNothing(t.right, matches);
    }
  }

  lemma {:induction false} ExpectedStep(t: Cond, es: seq<EventId>, e: EventId, matches: Matches)
    ensures Handle(Expected(t, es, matches), e, Of(matches, e)) == Expected(t, es + [e], matches)
  {
    match t
    case Leaf(name, args, _, _) => FirstOfConcat(es, [e], name, args, matches);
    case Node(op, _, l, r) =>
      ExpectedStep(l, es, e, matches);
      ExpectedStep(r, es, e, matches);
      ExpectedFacts(l, es + [e], matches);
      ExpectedFacts(r, es + [e], matches);
  }

  /**
   After any sequence of events, the root has the value of the formula in which a
   leaf is true when some event matched it, and each true leaf holds the first
   event that matched it.
   */
  lemma {:induction false} HistoryMeaning(t: Cond, es: seq<EventId>, matches: Matches)
    ensures HandleAll(Fresh(t), es, matches) == Expected(t, es, matches)
    ensures HandleAll(Fresh(t), es, matches).value == Eval(t, Among(es, matches))
    decreases |es|
  {
    if es == [] {
      ExpectedOfNothing(t, matches);
    } else {
      var init, e := es[..|es| - 1], es[|es| - 1];
      HistoryMeaning(t, init, matches);
      ExpectedStep(t, init, e, matches);
      assert init + [e] == es;
    }
    ExpectedFacts(t, es, matches);
  }

  /** A reset tree has no value and holds nothing. */
  lemma {:induction false} ResetForgets(t: Cond)
    ensures Reset(t) == Fresh(t) && !Reset(t).value && Held(Reset(t)) == []
    ensures Sound(Reset(t)) && Settled(Reset(t))
  {
    if t.Node? {
      ResetForgets(t.left);
      ResetForgets(t.right);
    }
  }

  lemma {:induction false} FreshTwice(t: Cond)
    ensures Fresh(Fresh(t)) == Fresh(t)
  {
    if t.Node? {
      FreshTwice(t.left);
      FreshTwice(t.right);
    }
  }

  // ---- Collected events are enough ----

  lemma {:induction false} EvalMonotone(t: Cond, small: seq<EventId>, large: seq<EventId>, matches: Matches)
    requires forall e :: e in small ==> e in large
    requires Eval(t, Among(small, matches))
    ensures Eval(t, Among(large, matches))
  {
    match t
    case Leaf(name, args, _, _) =>
      FirstFound(small, name, args, matches);
      FirstFound(large, name, args, matches);
    case Node(op, _, l, r) =>
      if Eval(l, Among(small, matches)) { EvalMonotone(l, small, large, matches); }
      if Eval(r, Among(small, matches)) { EvalMonotone(r, small, large, matches); }
  }

  lemma {:induction false} GatheredSatisfies(t: Cond, matches: Matches)
    requires Sound(t) && Settled(t) && Honest(t, matches) && t.value
    ensures Eval(t, Among(Gathered(t), matches))
  {
    match t
    case Leaf(name, args, _, event) => FirstFound(Gathered(t), name, args, matches);
    case Node(op, _, l, r) =>
      if l.value {
        GatheredSatisfies(l, matches);
        EvalMonotone(l, Gathered(l), Gathered(t), matches);
      }
      if r.value {
        GatheredSatisfies(r, matches);
        EvalMonotone(r, Gathered(r), Gathered(t), matches);
      }
  }

  lemma {:induction false} GatheredIsHeld(t: Cond)
    requires Sound(t)
    ensures forall e :: e in Gathered(t) ==> e in Held(t)
  {
    if t.Node? {
      GatheredIsHeld(t.left);
      GatheredIsHeld(t.right);
    }
  }

  /**
   The events collected from a condition that has become true would, offered
   alone to a new copy of it, make that copy true as well.
   */
  lemma GatheredSuffices(t: Cond, es: seq<EventId>, matches: Matches)
    requires HandleAll(Fresh(t), es, matches).value
    ensures Sound(HandleAll(Fresh(t), es, matches))
    ensures HandleAll(Fresh(t), Gathered(HandleAll(Fresh(t), es, matches)), matches).value
  {
    HistoryMeaning(t, es, matches);
    ExpectedFacts(t, es, matches);
    var now := Expected(t, es, matches);
    GatheredSatisfies(now, matches);
    EvalIgnoresState(now, t, Among(Gathered(now), matches));
    HistoryMeaning(t, Gathered(now), matches);
  }

  lemma {:induction false} EvalIgnoresState(s: Cond, t: Cond, truth: Hit)
    requires Fresh(s) == Fresh(t)
    ensures Eval(s, truth) == Eval(t, truth)
  {
    if s.Node? {
      EvalIgnoresState(s.left, t.left, truth);
      EvalIgnoresState(s.right, t.right, truth);
    }
  }

  // ---- What each operation does to the events held ----

  lemma {:induction false} HandleKeeps(t: Cond, e: EventId, hit: Hit)
    requires Sound(t)
    ensures Sound(Handle(t, e, hit)) && Settled(Handle(t, e, hit)) && Fresh(Handle(t, e, hit)) == Fresh(t)
    ensures multiset(Held(Handle(t, e, hit))) == multiset(Held(t))[e := multiset(Held(t))[e] + Taken(t, hit)]
  {
    if t.Node? {
      HandleKeeps(t.left, e, hit);
      HandleKeeps(t.right, e, hit);
    }
  }

  lemma {:induction false} NothingTaken(t: Cond, e: EventId, hit: Hit)
    requires Sound(t) && Settled(t) && Taken(t, hit) == 0
    ensures Handle(t, e, hit) == t
  {
    if t.Node? {
      NothingTaken(t.left, e, hit);
      NothingTaken(t.right, e, hit);
    }
  }

  lemma {:induction false} HandleHonest(t: Cond, e: EventId, matches: Matches)
    requires Honest(t, matches)
    ensures Honest(Handle(t, e, Of(matches, e)), matches)
  {
    if t.Node? {
      HandleHonest(t.left, e, matches);
      HandleHonest(t.right, e, matches);
    }
  }

  /** Every leaf the event satisfies is already true. */
  predicate Covers(t: Cond, e: EventId, matches: Matches) {
    match t
    case Leaf(name, args, value, _) => matches(e, name, args) ==> value
    case Node(_, _, l, r) => Covers(l, e, matches) && Covers(r, e, matches)
  }

  /** The tree has been offered, as a whole, every event it holds. */
  ghost predicate Closed(t: Cond, matches: Matches) {
    forall e :: e in Held(t) ==> Covers(t, e, matches)
  }

  lemma {:induction false} HandleCovers(t: Cond, e: EventId, x: EventId, matches: Matches)
    requires x == e || Covers(t, x, matches)
    ensures Covers(Handle(t, e, Of(matches, e)), x, matches)
  {
    if t.Node? {
      HandleCovers(t.left, e, x, matches);
      HandleCovers(t.right, e, x, matches);
    }
  }

  lemma HandleClosed(t: Cond, e: EventId, matches: Matches)
    requires Sound(t) && Closed(t, matches)
    ensures Closed(Handle(t, e, Of(matches, e)), matches)
  {
    var t' := Handle(t, e, Of(matches, e));
    HandleKeeps(t, e, Of(matches, e));
    forall x | x in Held(t') ensures Covers(t', x, matches) {
      assert x in multiset(Held(t'));
      if x != e { assert x in multiset(Held(t)); }
      HandleCovers(t, e, x, matches);
    }
  }

  // ---- Handing the progress of a class over to its replacement ----

  /** event_operator_handle on each leaf in turn: the operators keep their old values. */
  function Absorb(t: Cond, e: EventId, hit: Hit): Cond {
    match t
    case Leaf(_, _, _, _) => Handle(t, e, hit)
    case Node(op, value, l, r) => Node(op, value, Absorb(l, e, hit), Absorb(r, e, hit))
  }

  /** job_class_event_block: offer the events held by the old tree to the leaves of the new one. */
  function Transfer(t: Cond, es: seq<EventId>, matches: Matches): Cond
    decreases |es|
  {
    if es == [] then t
    else Absorb(Transfer(t, es[..|es| - 1], matches), es[|es| - 1], Of(matches, es[|es| - 1]))
  }

  lemma {:induction false} AbsorbKeeps(t: Cond, e: EventId, hit: Hit)
    requires Sound(t)
    ensures Sound(Absorb(t, e, hit)) && Fresh(Absorb(t, e, hit)) == Fresh(t)
    ensures multiset(Held(Absorb(t, e, hit))) == multiset(Held(t))[e := multiset(Held(t))[e] + Taken(t, hit)]
    ensures t.Node? ==> Absorb(t, e, hit).value == t.value
  {
    if t.Node? {
      AbsorbKeeps(t.left, e, hit);
      AbsorbKeeps(t.right, e, hit);
    }
  }

  function Leaves(t: Cond): seq<Cond> {
    if t.Leaf? then [t] else Leaves(t.left) + Leaves(t.right)
  }

  function Satisfied(t: Cond): seq<bool> {
    if t.Leaf? then [t.value] else Satisfied(t.left) + Satisfied(t.right)
  }

  lemma {:induction false} ShapeDecides(a: Cond, b: Cond)
    requires Fresh(a) == Fresh(b)
    ensures |Leaves(a)| == |Leaves(b)| == |Satisfied(a)| == |Satisfied(b)|
  {
    if a.Node? {
      ShapeDecides(a.left, b.left);
      ShapeDecides(a.right, b.right);
    }
  }

  lemma SplitEqual<T>(a: seq<T>, b: seq<T>, c: seq<T>, d: seq<T>)
    requires a + b == c + d && |a| == |c|
    ensures a == c && b == d
  {
    assert a == (a + b)[..|a|] && c == (c + d)[..|c|];
    assert b == (a + b)[|a|..] && d == (c + d)[|c|..];
  }

  lemma {:induction false} AbsorbLikeHandle(a: Cond, b: Cond, e: EventId, hit: Hit)
    requires Fresh(a) == Fresh(b) && Leaves(a) == Leaves(b)
    ensures Leaves(Absorb(a, e, hit)) == Leaves(Handle(b, e, hit))
    ensures Fresh(Absorb(a, e, hit)) == Fresh(Handle(b, e, hit))
  {
    if a.Node? {
      ShapeDecides(a.left, b.left);
      SplitEqual(Leaves(a.left), Leaves(a.right), Leaves(b.left), Leaves(b.right));
      AbsorbLikeHandle(a.left, b.left, e, hit);
      AbsorbLikeHandle(a.right, b.right, e, hit);
    }
  }

  lemma {:induction false} TransferLikeHistory(t: Cond, es: seq<EventId>, matches: Matches)
    ensures Leaves(Transfer(t, es, matches)) == Leaves(HandleAll(t, es, matches))
    ensures Fresh(Transfer(t, es, matches)) == Fresh(HandleAll(t, es, matches))
    decreases |es|
  {
    if es != [] {
      var init, e := es[..|es| - 1], es[|es| - 1];
      TransferLikeHistory(t, init, matches);
      AbsorbLikeHandle(Transfer(t, init, matches), HandleAll(t, init, matches), e, Of(matches, e));
    }
  }

  lemma {:induction false} LeavesDecide(a: Cond, b: Cond)
    requires Fresh(a) == Fresh(b) && Leaves(a) == Leaves(b)
    ensures Satisfied(a) == Satisfied(b) && Held(a) == Held(b) && (Sound(a) <==> Sound(b))
    ensures forall matches: Matches :: Honest(a, matches) <==> Honest(b, matches)
  {
    if a.Node? {
      ShapeDecides(a.left, b.left);
      SplitEqual(Leaves(a.left), Leaves(a.right), Leaves(b.left), Leaves(b.right));
      LeavesDecide(a.left, b.left);
      LeavesDecide(a.right, b.right);
    } else {
      assert Leaves(a)[0] == Leaves(b)[0];
    }
  }

  lemma {:induction false} HeldEventsRebuild(t: Cond, es: seq<EventId>, matches: Matches)
    requires Sound(t) && Honest(t, matches)
    requires forall e :: e in Held(t) ==> e in es
    requires forall e :: e in es ==> Covers(t, e, matches)
    ensures Satisfied(Expected(t, es, matches)) == Satisfied(t)
  {
    match t
    case Leaf(name, args, _, event) =>
      FirstFound(es, name, args, matches);
      if event.Some? { assert event.value in Held(t); }
    case Node(_, _, l, r) =>
      HeldEventsRebuild(l, es, matches);
      HeldEventsRebuild(r, es, matches);
  }

  /** Trees of one shape with the same true leaves react alike to the next event. */
  lemma {:induction false} SameLeavesSameFuture(a: Cond, b: Cond, e: EventId, hit: Hit)
    requires Fresh(a) == Fresh(b) && Satisfied(a) == Satisfied(b)
    ensures Handle(a, e, hit).value == Handle(b, e, hit).value
    ensures Satisfied(Handle(a, e, hit)) == Satisfied(Handle(b, e, hit))
    ensures Taken(a, hit) == Taken(b, hit)
  {
    if a.Node? {
      ShapeDecides(a.left, b.left);
      SplitEqual(Satisfied(a.left), Satisfied(a.right), Satisfied(b.left), Satisfied(b.right));
      SameLeavesSameFuture(a.left, b.left, e, hit);
      SameLeavesSameFuture(a.right, b.right, e, hit);
    } else {
      assert Satisfied(a)[0] == Satisfied(b)[0];
    }
  }

  /**
   Reloading a class with an unchanged start condition loses no progress: the
   new tree has exactly the satisfied leaves of the old one, and takes the same
   value as the old tree would at the next event, whatever that is.
   */
  lemma TransferLosesNothing(old_: Cond, new_: Cond, matches: Matches, e: EventId)
    requires Fresh(new_) == Fresh(old_) == new_
    requires Sound(old_) && Honest(old_, matches) && Closed(old_, matches)
    ensures var t := Transfer(new_, Held(old_), matches);
            && Satisfied(t) == Satisfied(old_)
            && Sound(t) && Honest(t, matches)
            && Handle(t, e, Of(matches, e)).value == Handle(old_, e, Of(matches, e)).value
            && Taken(t, Of(matches, e)) == Taken(old_, Of(matches, e))
  {
    var es := Held(old_);
    var t := Transfer(new_, es, matches);
    TransferLikeHistory(new_, es, matches);
    HistoryMeaning(old_, es, matches);
    ExpectedFacts(old_, es, matches);
    LeavesDecide(t, Expected(old_, es, matches));
    HeldEventsRebuild(old_, es, matches);
    SameLeavesSameFuture(t, old_, e, Of(matches, e));
  }

  /** Whatever the new condition is, it has then been offered every event it holds. */
  lemma TransferClosed(t: Cond, es: seq<EventId>, matches: Matches)
    requires Sound(t) && Closed(t, matches)
    ensures Sound(Transfer(t, es, matches)) && Fresh(Transfer(t, es, matches)) == Fresh(t)
    ensures Honest(t, matches) ==> Honest(Transfer(t, es, matches), matches)
    ensures Closed(Transfer(t, es, matches), matches)
    ensures t.Node? ==> Transfer(t, es, matches).value == t.value
  {
    TransferKeeps(t, es, matches);
    forall x | x in es || x in Held(t) ensures Covers(Transfer(t, es, matches), x, matches) {
      TransferCovers(t, es, x, matches);
    }
  }

  lemma {:induction false} TransferKeeps(t: Cond, es: seq<EventId>, matches: Matches)
    requires Sound(t)
    ensures Sound(Transfer(t, es, matches)) && Fresh(Transfer(t, es, matches)) == Fresh(t)
    ensures Honest(t, matches) ==> Honest(Transfer(t, es, matches), matches)
    ensures t.Node? ==> Transfer(t, es, matches).value == t.value
    ensures forall x :: x in Held(Transfer(t, es, matches)) ==> x in Held(t) || x in es
    decreases |es|
  {
    if es != [] {
      var init, e := es[..|es| - 1], es[|es| - 1];
      TransferKeeps(t, init, matches);
      var u := Transfer(t, init, matches);
      AbsorbKeeps(u, e, Of(matches, e));
      AbsorbHonest(u, e, matches);
      AbsorbHeld(u, e, Of(matches, e));
    }
  }

  lemma AbsorbHeld(t: Cond, e: EventId, hit: Hit)
    requires Sound(t)
    ensures forall x :: x in Held(Absorb(t, e, hit)) ==> x in Held(t) || x == e
  {
    AbsorbKeeps(t, e, hit);
    forall x | x in Held(Absorb(t, e, hit)) ensures x in Held(t) || x == e {
      assert x in multiset(Held(Absorb(t, e, hit)));
      if x != e { assert x in multiset(Held(t)); }
    }
  }

  lemma {:induction false} TransferCovers(t: Cond, es: seq<EventId>, x: EventId, matches: Matches)
    requires x in es || Covers(t, x, matches)
    ensures Covers(Transfer(t, es, matches), x, matches)
    decreases |es|
  {
    if es != [] {
      var init, e := es[..|es| - 1], es[|es| - 1];
      if x != e { TransferCovers(t, init, x, matches); }
      AbsorbCovers(Transfer(t, init, matches), e, x, matches);
    }
  }

  lemma {:induction false} AbsorbHonest(t: Cond, e: EventId, matches: Matches)
    ensures Honest(t, matches) ==> Honest(Absorb(t, e, Of(matches, e)), matches)
  {
    if t.Node? {
      AbsorbHonest(t.left, e, matches);
      AbsorbHonest(t.right, e, matches);
    }
  }

  lemma {:induction false} AbsorbCovers(t: Cond, e: EventId, x: EventId, matches: Matches)
    requires x == e || Covers(t, x, matches)
    ensures Covers(Absorb(t, e, Of(matches, e)), x, matches)
  {
    if t.Node? {
      AbsorbCovers(t.left, e, x, matches);
      AbsorbCovers(t.right, e, x, matches);
    }
  }
}

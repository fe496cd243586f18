/**
 Conditions carried across a re-exec: the post-order array of node records and
 the stack that rebuilds the tree from it (init/event_operator.c:917-1171), with
 matched events carried as positions in the event list (init/event.c:785-837).
 */
module ConditionStore {
  import opened Wrappers
  import opened Condition
  import opened Lists

  datatype Kind = AndNode | OrNode | MatchNode

  /** One record: the fields that are absent for a node are absent from its record. */
  datatype Record = Record(kind: Kind, value: bool, name: Option<string>, env: Option<seq<string>>, event: Option<nat>)

  datatype Fault = Malformed | NoSuchEvent | StackEmpty | StackNotEmpty

  // ---- Events by position ----

  /** event_to_index */
  function IndexOf(events: seq<EventId>, e: EventId): (i: Option<nat>)
    ensures i.None? <==> e !in events
    ensures i.Some? ==> i.value < |events| && events[i.value] == e && e !in events[..i.value]
  {
    if events == [] then None
    else if events[0] == e then Some(0)
    else
      var rest := IndexOf(events[1..], e);
      if rest.None? then None
      else
        assert events[..rest.value + 1] == [events[0]] + events[1..][..rest.value];
        Some(rest.value + 1)
  }

  /** event_from_index */
  function EventAt(events: seq<EventId>, i: nat): Option<EventId> {
    if i < |events| then Some(events[i]) else None
  }

  method EventToIndex(events: seq<EventId>, e: EventId) returns (i: Option<nat>)
    ensures i == IndexOf(events, e)
  {
    var index := 0;
    while index < |events|
      invariant 0 <= index <= |events|
      invariant e !in events[..index]
    {
      if events[index] == e {
        IndexIsFirst(events, e, index);
        return Some(index);
      }
      index := index + 1;
    }
    return None;
  }

  lemma {:induction false} IndexIsFirst(events: seq<EventId>, e: EventId, i: nat)
    requires i < |events| && events[i] == e && e !in events[..i]
    ensures IndexOf(events, e) == Some(i)
  {
    if i > 0 {
      assert events[..i] == [events[0]] + events[1..][..i - 1];
      IndexIsFirst(events[1..], e, i - 1);
    }
  }

  method EventFromIndex(events: seq<EventId>, wanted: nat) returns (e: Option<EventId>)
    ensures e == EventAt(events, wanted)
  {
    var i := 0;
    while i < |events|
      invariant 0 <= i <= |events|
      invariant i <= wanted
    {
      if i == wanted {
        return Some(events[i]);
      }
      i := i + 1;
    }
    return None;
  }

  // ---- Storing ----

  /** event_operator_serialise */
  function Store(node: Cond, events: seq<EventId>): Option<Record> {
    match node
    case Node(op, value, _, _) => Some(Record(if op.And? then AndNode else OrNode, value, None, None, None))
    case Leaf(name, args, value, event) =>
      var env := if args == [] then None else Some(args);
      if event.None? then Some(Record(MatchNode, value, Some(name), env, None))
      else
        var i := IndexOf(events, event.value);
        if i.None? then None else Some(Record(MatchNode, value, Some(name), env, i))
  }

  /** event_operator_serialise_all, by structure */
  function StoreAll(t: Cond, events: seq<EventId>): Option<seq<Record>> {
    var own := Store(t, events);
    if own.None? then None
    else if t.Leaf? then Some([own.value])
    else
      var l, r := StoreAll(t.left, events), StoreAll(t.right, events);
      if l.None? || r.None? then None else Some(l.value + r.value + [own.value])
  }

  lemma {:induction false} StoreAllSucceeds(t: Cond, events: seq<EventId>)
    ensures StoreAll(t, events).Some? <==> forall e :: e in Held(t) ==> e in events
  {
    match t
    case Leaf(_, _, _, event) => if event.Some? { assert event.value in Held(t); }
    case Node(_, _, l, r) =>
      StoreAllSucceeds(l, events);
      StoreAllSucceeds(r, events);
  }

  /** The records of a list of nodes. */
  function StoreEach(nodes: seq<Cond>, events: seq<EventId>): Option<seq<Record>>
    decreases |nodes|
  {
    if nodes == [] then Some([])
    else
      var init, last := StoreEach(nodes[..|nodes| - 1], events), Store(nodes[|nodes| - 1], events);
      if init.None? || last.None? then None else Some(init.value + [last.value])
  }

  lemma {:induction false} StoreEachConcat(a: seq<Cond>, b: seq<Cond>, events: seq<EventId>)
    ensures StoreEach(a + b, events) ==
            var x, y := StoreEach(a, events), StoreEach(b, events);
            if x.None? || y.None? then None else Some(x.value + y.value)
    decreases |b|
  {
    if b == [] {
      assert a + b == a;
      if StoreEach(a, events).Some? { assert StoreEach(a, events).value + [] == StoreEach(a, events).value; }
    } else {
      assert (a + b)[..|a + b| - 1] == a + b[..|b| - 1];
      StoreEachConcat(a, b[..|b| - 1], events);
      var x, y, last := StoreEach(a, events), StoreEach(b[..|b| - 1], events), Store(b[|b| - 1], events);
      if x.Some? && y.Some? && last.Some? {
        assert (x.value + y.value) + [last.value] == x.value + (y.value + [last.value]);
      }
    }
  }

  lemma StoreOne(t: Cond, events: seq<EventId>)
    ensures StoreEach([t], events) == if Store(t, events).None? then None else Some([Store(t, events).value])
  {
    assert [t][..0] == [];
    assert StoreEach([], events) == Some([]);
    if Store(t, events).Some? { assert [] + [Store(t, events).value] == [Store(t, events).value]; }
  }

  lemma {:induction false} StoreByNode(t: Cond, events: seq<EventId>)
    ensures StoreEach(PostOrder(t), events) == StoreAll(t, events)
  {
    StoreOne(t, events);
    if t.Node? {
      StoreByNode(t.left, events);
      StoreByNode(t.right, events);
      StoreEachConcat(PostOrder(t.left), PostOrder(t.right), events);
      StoreEachConcat(PostOrder(t.left) + PostOrder(t.right), [t], events);
    }
  }

  /** event_operator_serialise_all */
  method Serialise(t: Cond, events: seq<EventId>) returns (json: Option<seq<Record>>)
    ensures json == StoreAll(t, events)
  {
    hide StoreAll, PostOrder, Store;
    var nodes := PostOrder(t);
    StoreByNode(t, events);
    var records: seq<Record> := [];
    var i := 0;
    while i < |nodes|
      invariant 0 <= i <= |nodes|
      invariant StoreEach(nodes[..i], events) == Some(records)
    {
      var record := Store(nodes[i], events);
      assert nodes[..i + 1][..i] == nodes[..i];
      if record.None? {
        assert nodes[..i + 1] + nodes[i + 1..] == nodes;
        StoreEachConcat(nodes[..i + 1], nodes[i + 1..], events);
        return None;
      }
      records := records + [record.value];
      i := i + 1;
    }
    assert nodes[..i] == nodes;
    return Some(records);
  }

  // ---- Rebuilding ----

  /** One record: event_operator_deserialise, then the stack. */
  function Load(record: Record, stack: seq<Cond>, events: seq<EventId>): Result<seq<Cond>, Fault> {
    match record
    case Record(MatchNode, value, name, env, event) =>
      if name.None? then Err(Malformed)
      else
        var args := if env.None? then [] else env.value;
        if event.None? then Ok(stack + [Leaf(name.value, args, value, None)])
        else
          var e := EventAt(events, event.value);
          if e.None? then Err(NoSuchEvent) else Ok(stack + [Leaf(name.value, args, value, e)])
    case Record(kind, value, name, env, event) =>
      if name.Some? || env.Some? || event.Some? then Err(Malformed)
      else if |stack| < 2 then Err(StackEmpty)
      else
        var op := if kind.AndNode? then And else Or;
        Ok(stack[..|stack| - 2] + [Node(op, value, stack[|stack| - 2], stack[|stack| - 1])])
  }

  function LoadEach(records: seq<Record>, stack: seq<Cond>, events: seq<EventId>): Result<seq<Cond>, Fault>
    decreases |records|
  {
    if records == [] then Ok(stack)
    else
      var stack' :- Load(records[0], stack, events);
      LoadEach(records[1..], stack', events)
  }

  function LoadAll(records: seq<Record>, events: seq<EventId>): Result<Cond, Fault> {
    var stack :- LoadEach(records, [], events);
    if stack == [] then Err(StackEmpty)
    else if |stack| > 1 then Err(StackNotEmpty)
    else Ok(stack[0])
  }

  /** event_operator_deserialise_all */
  method Deserialise(json: seq<Record>, events: seq<EventId>) returns (r: Result<Cond, Fault>)
    ensures r == LoadAll(json, events)
  {
    hide Load;
    var stack: seq<Cond> := [];
    var i := 0;
    assert json[0..] == json;
    while i < |json|
      invariant 0 <= i <= |json|
      invariant LoadEach(json, [], events) == LoadEach(json[i..], stack, events)
    {
      assert json[i..][1..] == json[i + 1..];
      var next := Load(json[i], stack, events);
      if next.Err? {
        return Err(next.error);
      }
      stack := next.value;
      i := i + 1;
    }
    if stack == [] {
      return Err(StackEmpty);
    }
    if |stack| > 1 {
      return Err(StackNotEmpty);
    }
    return Ok(stack[0]);
  }

  // ---- The two are inverse ----

  /** The tree with each held event replaced by the one at the same position of the other list. */
  function Moved(t: Cond, from: seq<EventId>, to: seq<EventId>): Cond
    requires |from| == |to| && forall e :: e in Held(t) ==> e in from
  {
    match t
    case Leaf(name, args, value, event) =>
      if event.None? then t
      else
        assert event.value in Held(t);
        Leaf(name, args, value, Some(to[IndexOf(from, event.value).value]))
    case Node(op, value, l, r) => Node(op, value, Moved(l, from, to), Moved(r, from, to))
  }

  lemma LoadCons(record: Record, rest: seq<Record>, stack: seq<Cond>, events: seq<EventId>)
    ensures LoadEach([record] + rest, stack, events) ==
            if Load(record, stack, events).Ok? then LoadEach(rest, Load(record, stack, events).value, events)
            else Err(Load(record, stack, events).error)
  {
    assert ([record] + rest)[1..] == rest;
  }

  lemma {:induction false} LoadStored(t: Cond, from: seq<EventId>, to: seq<EventId>, rest: seq<Record>,
    stack: seq<Cond>)
    requires |from| == |to| && (forall e :: e in Held(t) ==> e in from)
    ensures StoreAll(t, from).Some?
    ensures LoadEach(StoreAll(t, from).value + rest, stack, to) == LoadEach(rest, stack + [Moved(t, from, to)], to)
  {
    hide LoadEach;
    StoreAllSucceeds(t, from);
    var own := Store(t, from).value;
    if t.Leaf? {
      LoadCons(own, rest, stack, to);
    } else {
      var l, r := t.left, t.right;
      StoreAllSucceeds(l, from);
      StoreAllSucceeds(r, from);
      var a, b := StoreAll(l, from).value, StoreAll(r, from).value;
      assert StoreAll(t, from).value + rest == a + (b + ([own] + rest));
      LoadStored(l, from, to, b + ([own] + rest), stack);
      LoadStored(r, from, to, [own] + rest, stack + [Moved(l, from, to)]);
      var both := stack + [Moved(l, from, to)] + [Moved(r, from, to)];
      LoadCons(own, rest, both, to);
      assert both[..|both| - 2] == stack;
    }
  }

  /**
   Stored under one event list and rebuilt under another of the same length, a tree keeps
   everything but its event names.
   */
  lemma StoreLoad(t: Cond, from: seq<EventId>, to: seq<EventId>)
    requires |from| == |to| && (forall e :: e in Held(t) ==> e in from)
    ensures StoreAll(t, from).Some?
    ensures LoadAll(StoreAll(t, from).value, to) == Ok(Moved(t, from, to))
  {
    LoadStored(t, from, to, [], []);
    var records := StoreAll(t, from).value;
    assert records + [] == records;
    assert [] + [Moved(t, from, to)] == [Moved(t, from, to)];
  }

  lemma {:induction false} MovedNowhere(t: Cond, events: seq<EventId>)
    requires forall e :: e in Held(t) ==> e in events
    ensures Moved(t, events, events) == t
  {
    match t
    case Leaf(_, _, _, event) => if event.Some? { assert event.value in Held(t); }
    case Node(_, _, l, r) =>
      MovedNowhere(l, events);
      MovedNowhere(r, events);
  }

  /** Storing and rebuilding a tree is the identity. */
  lemma StoreLoadIdentity(t: Cond, events: seq<EventId>)
    requires forall e :: e in Held(t) ==> e in events
    ensures StoreAll(t, events).Some? && LoadAll(StoreAll(t, events).value, events) == Ok(t)
  {
    StoreLoad(t, events, events);
    MovedNowhere(t, events);
  }

  /** The holds on each event stay the same in number, so the stored blocker counts stay right. */
  lemma {:induction false} MovedHolds(t: Cond, from: seq<EventId>, to: seq<EventId>, i: nat)
    requires |from| == |to| && Distinct(from) && Distinct(to) && i < |from|
    requires forall e :: e in Held(t) ==> e in from
    ensures multiset(Held(Moved(t, from, to)))[to[i]] == multiset(Held(t))[from[i]]
  {
    match t
    case Leaf(_, _, _, event) =>
      if event.Some? {
        assert event.value in Held(t);
        var k := IndexOf(from, event.value).value;
        assert from[k] == event.value;
        assert to[k] == to[i] <==> k == i;
      }
    case Node(_, _, l, r) =>
      MovedHolds(l, from, to, i);
      MovedHolds(r, from, to, i);
  }

  /** Records as event_operator_serialise writes them: an empty argument list is left out. */
  predicate Tidy(records: seq<Record>) {
    forall i :: 0 <= i < |records| ==> records[i].env != Some([])
  }

  function StackRecords(stack: seq<Cond>, events: seq<EventId>): Option<seq<Record>>
    decreases |stack|
  {
    if stack == [] then Some([])
    else
      var init, last := StackRecords(stack[..|stack| - 1], events), StoreAll(stack[|stack| - 1], events);
      if init.None? || last.None? then None else Some(init.value + last.value)
  }

  lemma StackRecordsPush(stack: seq<Cond>, t: Cond, events: seq<EventId>)
    ensures StackRecords(stack + [t], events) ==
            var init, last := StackRecords(stack, events), StoreAll(t, events);
            if init.None? || last.None? then None else Some(init.value + last.value)
  {
    assert (stack + [t])[..|stack|] == stack;
  }

  lemma LoadStores(record: Record, stack: seq<Cond>, events: seq<EventId>)
    requires Distinct(events) && record.env != Some([])
    requires Load(record, stack, events).Ok? && StackRecords(stack, events).Some?
    ensures StackRecords(Load(record, stack, events).value, events) ==
            Some(StackRecords(stack, events).value + [record])
  {
    hide StackRecords, IndexOf;
    if record.kind.MatchNode? {
      var leaf := Load(record, stack, events).value[|stack|];
      if record.event.Some? { IndexIsUnique(events, record.event.value); }
      StackRecordsPush(stack, leaf, events);
    } else {
      var n := |stack| - 2;
      var l, r := stack[n], stack[n + 1];
      var t := Node(if record.kind.AndNode? then And else Or, record.value, l, r);
      assert stack[..n] + [l] + [r] == stack;
      StackRecordsPush(stack[..n] + [l], r, events);
      StackRecordsPush(stack[..n], l, events);
      StackRecordsPush(stack[..n], t, events);
      var a, b, c := StackRecords(stack[..n], events).value, StoreAll(l, events).value, StoreAll(r, events).value;
      assert a + b + c + [record] == a + (b + c + [record]);
    }
  }

  lemma IndexIsUnique(events: seq<EventId>, i: nat)
    requires Distinct(events) && i < |events|
    ensures IndexOf(events, events[i]) == Some(i)
  {
    IndexIsFirst(events, events[i], i);
  }

  lemma {:induction false} LoadEachStores(records: seq<Record>, stack: seq<Cond>, events: seq<EventId>)
    requires Distinct(events) && Tidy(records)
    requires LoadEach(records, stack, events).Ok? && StackRecords(stack, events).Some?
    ensures StackRecords(LoadEach(records, stack, events).value, events) ==
            Some(StackRecords(stack, events).value + records)
    decreases |records|
  {
    hide StackRecords, Load;
    if records == [] {
      assert StackRecords(stack, events).value + [] == StackRecords(stack, events).value;
    } else {
      LoadStores(records[0], stack, events);
      var more := Load(records[0], stack, events).value;
      LoadEachStores(records[1..], more, events);
      var a := StackRecords(stack, events).value;
      assert a + [records[0]] + records[1..] == a + records;
    }
  }

  lemma {:induction false} StoredTidily(t: Cond, events: seq<EventId>)
    ensures StoreAll(t, events).Some? ==> Tidy(StoreAll(t, events).value)
  {
    if t.Node? {
      StoredTidily(t.left, events);
      StoredTidily(t.right, events);
    }
  }

  /** Records that can be rebuilt are stored again as they were exactly when no argument list among them is empty. */
  lemma LoadStore(records: seq<Record>, events: seq<EventId>)
    requires Distinct(events) && LoadAll(records, events).Ok?
    ensures StoreAll(LoadAll(records, events).value, events) == Some(records) <==> Tidy(records)
  {
    hide LoadEach;
    StoredTidily(LoadAll(records, events).value, events);
    if Tidy(records) { TidyLoadStore(records, events); }
  }

  lemma TidyLoadStore(records: seq<Record>, events: seq<EventId>)
    requires Distinct(events) && Tidy(records) && LoadAll(records, events).Ok?
    ensures StoreAll(LoadAll(records, events).value, events) == Some(records)
  {
    hide LoadEach;
    LoadEachStores(records, [], events);
    var stack := LoadEach(records, [], events).value;
    StackRecordsPush([], stack[0], events);
    assert [] + [stack[0]] == stack;
    assert StackRecords([], events).value + records == records;
    assert StackRecords([], events).value + StoreAll(stack[0], events).value == StoreAll(stack[0], events).value;
  }
}

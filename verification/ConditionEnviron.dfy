/**
 The environment a satisfied condition contributes to a job: the variables of
 the events that satisfied it, and a variable naming those events
 (event_operator_environment, init/event_operator.c:492-554).
 */
module ConditionEnviron {
  import opened Wrappers
  import opened Environ
  import opened Condition

  /** The name and variables of an event. */
  datatype Occurrence = Occurrence(name: string, env: Env)

  type Lookup = EventId -> Occurrence

  /** One more name for the list under construction; the separator depends on its last character. */
  function WithName(list: string, name: string): string
    requires list != ""
  {
    if list[|list| - 1] != '=' then list + " " + name else list + name
  }

  function Listed(list: string, es: seq<EventId>, occ: Lookup): (r: string)
    requires list != ""
    ensures r != ""
    decreases |es|
  {
    if es == [] then list
    else WithName(Listed(list, es[..|es| - 1], occ), occ(es[|es| - 1]).name)
  }

  function Variables(es: seq<EventId>, occ: Lookup): Env
    decreases |es|
  {
    if es == [] then [] else Variables(es[..|es| - 1], occ) + occ(es[|es| - 1]).env
  }

  /** The table event_operator_environment leaves behind. */
  function Collected(env: Env, t: Cond, occ: Lookup, key: string, outer: map<string, string>): Env
    requires Sound(t)
  {
    var es := Gathered(t);
    Added(Appended(env, Variables(es, occ), true, outer), Listed(key + "=", es, occ), true, outer)
  }

  /** The value of the variable that names the events. */
  function EventNames(es: seq<EventId>, occ: Lookup): string
    decreases |es|
  {
    if es == [] then ""
    else
      var before, name := EventNames(es[..|es| - 1], occ), occ(es[|es| - 1]).name;
      if before == "" || before[|before| - 1] == '=' then before + name else before + " " + name
  }

  lemma {:induction false} ListedNames(key: string, es: seq<EventId>, occ: Lookup)
    ensures Listed(key + "=", es, occ) == key + "=" + EventNames(es, occ)
    decreases |es|
  {
    hide WithName;
    if es == [] {
      assert key + "=" + "" == key + "=";
    } else {
      var init := es[..|es| - 1];
      ListedNames(key, init, occ);
      NamedNext(key, EventNames(init, occ), occ(es[|es| - 1]).name);
    }
  }

  /** One more name, seen from the value and from the whole assignment. */
  lemma NamedNext(key: string, before: string, name: string)
    ensures WithName(key + "=" + before, name) ==
            key + "=" + if before == "" || before[|before| - 1] == '=' then before + name else before + " " + name
  {
    var list := key + "=" + before;
    if before != "" {
      assert list[|list| - 1] == before[|before| - 1];
    } else {
      assert list == key + "=";
    }
    assert list + " " + name == key + "=" + (before + " " + name);
    assert list + name == key + "=" + (before + name);
  }

  /**
   Every variable has the value its last writer gave it, in the order in which
   the condition lists the events, and the event variable names those events.
   */
  lemma CollectedMeaning(env: Env, t: Cond, occ: Lookup, key: string, outer: map<string, string>, k: string)
    requires Sound(t) && WellFormed(env) && PlainKey(key) && PlainKey(k)
    ensures WellFormed(Collected(env, t, occ, key, outer))
    ensures var es := Gathered(t);
            var last := LastMention(Variables(es, occ), k);
            Get(Collected(env, t, occ, key, outer), k) ==
            if k == key then Some(EventNames(es, occ))
            else if last.Some? then Meant(last.value, outer)
            else Get(env, k)
  {
    var es := Gathered(t);
    var list := Listed(key + "=", es, occ);
    ListedNames(key, es, occ);
    KeyOfAssignment(key, EventNames(es, occ));
    AppendedLastWriterWins(env, Variables(es, occ), outer, k);
    AddedWellFormed(Appended(env, Variables(es, occ), true, outer), list, true, outer);
    AddedGet(Appended(env, Variables(es, occ), true, outer), list, true, outer, k);
  }

  lemma KeyOfAssignment(key: string, value: string)
    requires PlainKey(key)
    ensures Assigns(key + "=" + value) && Key(key + "=" + value) == key && Value(key + "=" + value) == value
  {
    var s := key + "=" + value;
    assert s[|key|] == '=';
    assert forall i :: 0 <= i < |key| ==> s[i] == key[i];
    assert KeyLength(s) == |key|;
  }

  /** event_operator_environment */
  method Collect(table: Table, t: Cond, occ: Lookup, key: string, outer: map<string, string>)
    requires Sound(t)
    modifies table
    ensures table.entries == Collected(old(table.entries), t, occ, key, outer)
  {
    hide Added, Appended;
    var es := Gathered(t);
    var list := key + "=";
    var i := 0;
    AppendedNothing(table.entries, outer);
    while i < |es|
      invariant 0 <= i <= |es|
      invariant list == Listed(key + "=", es[..i], occ)
      invariant table.entries == Appended(old(table.entries), Variables(es[..i], occ), true, outer)
    {
      assert es[..i + 1][..i] == es[..i];
      AppendedConcat(old(table.entries), Variables(es[..i], occ), occ(es[i]).env, true, outer);
      table.Append(occ(es[i]).env, true, outer);
      list := WithName(list, occ(es[i]).name);
      i := i + 1;
    }
    assert es[..i] == es;
    table.Add(list, true, outer);
  }

  /** Only what is known of the gathered events matters. */
  lemma CollectedAgrees(env: Env, t: Cond, a: Lookup, b: Lookup, key: string, outer: map<string, string>)
    requires Sound(t) && forall e :: e in Gathered(t) ==> a(e) == b(e)
    ensures Collected(env, t, a, key, outer) == Collected(env, t, b, key, outer)
  {
    ListedAgrees(key + "=", Gathered(t), a, b);
  }

  lemma {:induction false} NamesAgree(es: seq<EventId>, a: Lookup, b: Lookup)
    requires forall e :: e in es ==> a(e) == b(e)
    ensures EventNames(es, a) == EventNames(es, b) && Variables(es, a) == Variables(es, b)
    decreases |es|
  {
    if es != [] {
      assert es[|es| - 1] in es && forall e :: e in es[..|es| - 1] ==> e in es;
      NamesAgree(es[..|es| - 1], a, b);
    }
  }

  lemma {:induction false} ListedAgrees(list: string, es: seq<EventId>, a: Lookup, b: Lookup)
    requires list != "" && forall e :: e in es ==> a(e) == b(e)
    ensures Listed(list, es, a) == Listed(list, es, b) && Variables(es, a) == Variables(es, b)
    decreases |es|
  {
    if es != [] {
      assert es[|es| - 1] in es && forall e :: e in es[..|es| - 1] ==> e in es;
      ListedAgrees(list, es[..|es| - 1], a, b);
    }
  }

  lemma AppendedNothing(env: Env, outer: map<string, string>)
    ensures Appended(env, [], true, outer) == env
  {
  }
}

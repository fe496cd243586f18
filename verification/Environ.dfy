/**
 Environment tables: ordered lists of KEY=VALUE strings, searched front to back
 and updated in place (init/environ.c).
 */
module Environ {
  import opened Wrappers

  type Env = seq<string>

  /** The number of characters before the first '=' (strcspn). */
  function KeyLength(s: string): (n: nat)
    ensures n <= |s|
    ensures forall i :: 0 <= i < n ==> s[i] != '='
    ensures n < |s| ==> s[n] == '='
  {
    if s == "" || s[0] == '=' then 0 else 1 + KeyLength(s[1..])
  }

  function Key(s: string): string { s[..KeyLength(s)] }

  /** The string carries a value of its own, as opposed to a bare KEY. */
  predicate Assigns(s: string) { KeyLength(s) < |s| }

  function Value(entry: string): string
    requires Assigns(entry)
  {
    entry[KeyLength(entry) + 1..]
  }

  /** The entry test of environ_lookup. */
  predicate Names(entry: string, key: string) {
    |key| < |entry| && entry[..|key|] == key && entry[|key|] == '='
  }

  /** Index of the first entry for the key, or the table length. */
  function Find(env: Env, key: string): (i: nat)
    ensures i <= |env|
    ensures forall k :: 0 <= k < i ==> !Names(env[k], key)
    ensures i < |env| ==> Names(env[i], key)
  {
    if env == [] || Names(env[0], key) then 0 else 1 + Find(env[1..], key)
  }

  lemma NamedEntryAssigns(entry: string, key: string)
    requires Names(entry, key)
    ensures Assigns(entry)
  {
    assert entry[|key|] == '=';
  }

  /** environ_getn: the text after the first '=' of the first entry for the key. */
  function Get(env: Env, key: string): Option<string> {
    var i := Find(env, key);
    if i < |env| then
      NamedEntryAssigns(env[i], key);
      Some(Value(env[i]))
    else
      None
  }

  /** The entry environ_add would store: the string itself, or KEY completed from init's own environment. */
  function Completed(str: string, outer: map<string, string>): Option<string> {
    if Assigns(str) then Some(str)
    else if str in outer then Some(str + "=" + outer[str])
    else None
  }

  /** The value a string given to environ_add stands for. */
  function Meant(str: string, outer: map<string, string>): Option<string> {
    if Assigns(str) then Some(Value(str))
    else if str in outer then Some(outer[str])
    else None
  }

  /** The table after environ_add. */
  function Added(env: Env, str: string, replace: bool, outer: map<string, string>): Env {
    var i := Find(env, Key(str));
    var entry := Completed(str, outer);
    if i < |env| then
      if !replace then env
      else if entry.Some? then env[i := entry.value]
      else env[..i] + env[i + 1..]
    else if entry.Some? then env + [entry.value]
    else env
  }

  /** The table after environ_append. */
  function Appended(env: Env, news: Env, replace: bool, outer: map<string, string>): Env
    decreases |news|
  {
    if news == [] then env
    else Added(Appended(env, news[..|news| - 1], replace, outer), news[|news| - 1], replace, outer)
  }

  // ---- What a table means: at most one value per key ----

  predicate PlainKey(key: string) { '=' !in key }

  ghost predicate WellFormed(env: Env) {
    && (forall i :: 0 <= i < |env| ==> Assigns(env[i]))
    && (forall i, j :: 0 <= i < j < |env| ==> Key(env[i]) != Key(env[j]))
  }

  lemma NamesIsKey(entry: string, key: string)
    requires PlainKey(key)
    ensures Names(entry, key) <==> Assigns(entry) && Key(entry) == key
  {
    if Names(entry, key) {
      assert forall i :: 0 <= i < |key| ==> entry[i] == key[i];
    }
  }

  lemma CompletedKey(str: string, outer: map<string, string>)
    requires Completed(str, outer).Some?
    ensures Assigns(Completed(str, outer).value) && Key(Completed(str, outer).value) == Key(str)
    ensures Meant(str, outer) == Some(Value(Completed(str, outer).value))
  {
    if !Assigns(str) {
      var c := str + "=" + outer[str];
      assert c[|str|] == '=';
      assert forall i :: 0 <= i < |str| ==> c[i] == str[i];
      assert KeyLength(c) == |str|;
    }
  }

  lemma FindIsPosition(env: Env, key: string, i: nat)
    requires WellFormed(env) && PlainKey(key) && i < |env| && Key(env[i]) == key
    ensures Find(env, key) == i
  {
    NamesIsKey(env[i], key);
    var f := Find(env, key);
    if f < |env| { NamesIsKey(env[f], key); }
  }

  lemma AbsentKey(env: Env, key: string)
    requires WellFormed(env) && PlainKey(key)
    ensures Get(env, key) == None <==> forall i :: 0 <= i < |env| ==> Key(env[i]) != key
  {
    hide KeyLength, Find;
    forall i | 0 <= i < |env| ensures Names(env[i], key) <==> Key(env[i]) == key {
      NamesIsKey(env[i], key);
    }
  }

  /** Reading a table entry by entry: a key has the value of the entry that carries it. */
  lemma GetAt(env: Env, key: string, i: nat)
    requires WellFormed(env) && PlainKey(key) && i < |env| && Key(env[i]) == key
    ensures Get(env, key) == Some(Value(env[i]))
  {
    FindIsPosition(env, key, i);
  }

  lemma KeyIsPlain(s: string)
    ensures PlainKey(Key(s))
  {
  }

  /** environ_add keeps every key unique. */
  lemma AddedWellFormed(env: Env, str: string, replace: bool, outer: map<string, string>)
    requires WellFormed(env)
    ensures WellFormed(Added(env, str, replace, outer))
  {
    hide KeyLength, Find;
    var k := Key(str);
    KeyIsPlain(str);
    AbsentKey(env, k);
    var i := Find(env, k);
    if i < |env| { NamesIsKey(env[i], k); }
    if Completed(str, outer).Some? { CompletedKey(str, outer); }
  }

  /** environ_add changes the value of its own key and of no other. */
  lemma AddedGet(env: Env, str: string, replace: bool, outer: map<string, string>, key: string)
    requires WellFormed(env) && PlainKey(key)
    ensures Get(Added(env, str, replace, outer), key) ==
            if key != Key(str) || (!replace && Get(env, key).Some?) then Get(env, key)
            else Meant(str, outer)
  {
    hide KeyLength, Find;
    var k, entry, after := Key(str), Completed(str, outer), Added(env, str, replace, outer);
    KeyIsPlain(str);
    AddedWellFormed(env, str, replace, outer);
    AbsentKey(env, k);
    AbsentKey(env, key);
    AbsentKey(after, key);
    var i := Find(env, k);
    if i < |env| { NamesIsKey(env[i], k); }
    if entry.Some? { CompletedKey(str, outer); }
    if key == k {
      if entry.Some? && (replace || i == |env|) { GetAt(after, key, i); }
    } else {
      AddedKeepsOthers(env, str, replace, outer, key);
    }
  }

  lemma AddedKeepsOthers(env: Env, str: string, replace: bool, outer: map<string, string>, key: string)
    requires WellFormed(env) && PlainKey(key) && key != Key(str)
    ensures Get(Added(env, str, replace, outer), key) == Get(env, key)
  {
    hide KeyLength, Find;
    var entry, after := Completed(str, outer), Added(env, str, replace, outer);
    AddedWellFormed(env, str, replace, outer);
    AbsentKey(env, key);
    AbsentKey(after, key);
    var i := Find(env, Key(str));
    if entry.Some? { CompletedKey(str, outer); }
    if Get(env, key).Some? {
      var f := Find(env, key);
      NamesIsKey(env[f], key);
      if i < |env| { NamesIsKey(env[i], Key(str)); }
      var at := if i < |env| && replace && entry.None? && i < f then f - 1 else f;
      assert after[at] == env[f];
      GetAt(after, key, at);
    }
  }

  /** The last string of the list that mentions the key. */
  function LastMention(news: Env, key: string): Option<string> {
    if news == [] then None
    else if Key(news[|news| - 1]) == key then Some(news[|news| - 1])
    else LastMention(news[..|news| - 1], key)
  }

  /** environ_append with replacement: the last writer of each key wins, other keys keep their value. */
  lemma {:induction false} AppendedLastWriterWins(env: Env, news: Env, outer: map<string, string>, key: string)
    requires WellFormed(env) && PlainKey(key)
    ensures WellFormed(Appended(env, news, true, outer))
    ensures Get(Appended(env, news, true, outer), key) ==
            match LastMention(news, key)
              case None => Get(env, key)
              case Some(str) => Meant(str, outer)
    decreases |news|
  {
    hide KeyLength, Find;
    if news != [] {
      var init, last := news[..|news| - 1], news[|news| - 1];
      AppendedLastWriterWins(env, init, outer, key);
      AddedWellFormed(Appended(env, init, true, outer), last, true, outer);
      AddedGet(Appended(env, init, true, outer), last, true, outer, key);
    }
  }

  lemma {:induction false} AppendedConcat(env: Env, a: Env, b: Env, replace: bool, outer: map<string, string>)
    ensures Appended(env, a + b, replace, outer) == Appended(Appended(env, a, replace, outer), b, replace, outer)
    decreases |b|
  {
    if b == [] {
      assert a + b == a;
    } else {
      var init := b[..|b| - 1];
      assert (a + b)[..|a + b| - 1] == a + init;
      AppendedConcat(env, a, init, replace, outer);
    }
  }

  // ---- The table itself ----

  class Table {
    var entries: Env

    constructor (initial: Env)
      ensures entries == initial
    {
      entries := initial;
    }

    /** environ_lookup */
    method Lookup(key: string) returns (found: Option<nat>)
      ensures found.None? ==> Find(entries, key) == |entries|
      ensures found.Some? ==> found.value == Find(entries, key) < |entries|
    {
      var e := 0;
      while e < |entries|
        invariant 0 <= e <= |entries|
        invariant forall k :: 0 <= k < e ==> !Names(entries[k], key)
      {
        if Names(entries[e], key) {
          return Some(e);
        }
        e := e + 1;
      }
      return None;
    }

    /** environ_add */
    method Add(str: string, replace: bool, outer: map<string, string>)
      modifies this
      ensures entries == Added(old(entries), str, replace, outer)
    {
      var key := str[..KeyLength(str)];
      var entry := Completed(str, outer);
      var at := Lookup(key);
      if at.Some? && replace {
        if entry.Some? {
          entries := entries[at.value := entry.value];
        } else {
          entries := entries[..at.value] + entries[at.value + 1..];
        }
        return;
      } else if at.Some? {
        return;
      }
      if entry.Some? {
        entries := entries + [entry.value];
      }
    }

    /** environ_append */
    method Append(news: Env, replace: bool, outer: map<string, string>)
      modifies this
      ensures entries == Appended(old(entries), news, replace, outer)
    {
      hide Added;
      var e := 0;
      while e < |news|
        invariant 0 <= e <= |news|
        invariant entries == Appended(old(entries), news[..e], replace, outer)
      {
        assert news[..e + 1][..e] == news[..e];
        Add(news[e], replace, outer);
        e := e + 1;
      }
      assert news[..e] == news;
    }
  }
}

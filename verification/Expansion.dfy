/**
 Variable references in strings (environ_expand, init/environ.c:451-766).

 The reference semantics reads a string once into a word, with no environment in
 sight, and then gives the word a meaning.  The program has no word: it rewrites
 one buffer in place while moving its cursor.  The two agree on every string.
 */
module Expansion {
  import opened Wrappers
  import opened Environ

  datatype Fault = UnknownParameter(name: string) | ExpectedOperator | MismatchedBraces

  /** The operator of a bracketed reference; colon is the ignore_empty flag. */
  datatype Operator = Plain | Default(colon: bool) | Alternate(colon: bool)

  datatype Word =
    | End                                                           // a stop character or the end of the string
    | Text(c: char, next: Word)
    | Escape(next: Word)                                            // ${}
    | Simple(name: string, next: Word)                              // $NAME
    | Braced(key: Word, op: Operator, arg: Word, next: Word)        // ${key op arg}
    | NoOperator(key: Word)                                         // ${key, malformed or without an operator
    | Unclosed(key: Word, op: Operator, arg: Word)                  // ${key op arg, malformed or without its bracket

  datatype Reading = Reading(word: Word, rest: string)

  const KEY_STOPS := "}:-+"
  const ARG_STOPS := "}"

  predicate NameStart(c: char) { c == '_' || 'A' <= c <= 'Z' || 'a' <= c <= 'z' }
  predicate NameChar(c: char) { NameStart(c) || '0' <= c <= '9' }

  function NameLength(s: string): (n: nat)
    ensures n <= |s|
    ensures forall i :: 0 <= i < n ==> NameChar(s[i])
    ensures n < |s| ==> !NameChar(s[n])
  {
    if s != "" && NameChar(s[0]) then 1 + NameLength(s[1..]) else 0
  }

  /** The string starts with a dollar sign that begins a reference. */
  predicate Opens(s: string) { |s| > 1 && s[0] == '$' && (NameStart(s[1]) || s[1] == '{') }

  predicate Stops(s: string, until: string) { s == "" || (s[0] != '$' && s[0] in until) }

  function OperatorText(op: Operator): string {
    match op
    case Plain => ""
    case Default(colon) => if colon then ":-" else "-"
    case Alternate(colon) => if colon then ":+" else "+"
  }

  /** The operator at the front of what follows the key, if there is a valid one. */
  function OperatorAt(s: string): (op: Option<Operator>)
    ensures op.Some? ==> OperatorText(op.value) <= s
  {
    if |s| > 1 && s[0] == ':' && s[1] == '-' then Some(Default(true))
    else if |s| > 1 && s[0] == ':' && s[1] == '+' then Some(Alternate(true))
    else if s == "" || s[0] == '}' then Some(Plain)
    else if s[0] == '-' then Some(Default(false))
    else if s[0] == '+' then Some(Alternate(false))
    else None
  }

  // ---- Reading: the structure depends on the text alone ----

  function Read(s: string, until: string): (r: Reading)
    ensures |r.rest| <= |s|
    decreases |s|, 1
  {
    if Stops(s, until) then Reading(End, s)
    else if !Opens(s) then
      var r := Read(s[1..], until);
      Reading(Text(s[0], r.word), r.rest)
    else if NameStart(s[1]) then
      var n := NameLength(s[1..]);
      var r := Read(s[1 + n..], until);
      Reading(Simple(s[1..1 + n], r.word), r.rest)
    else if |s| > 2 && s[2] == '}' then
      var r := Read(s[3..], until);
      Reading(Escape(r.word), r.rest)
    else
      ReadBraced(s[2..], until)
  }

  /** Reads on from behind the opening bracket. */
  function ReadBraced(s: string, until: string): (r: Reading)
    ensures |r.rest| <= |s|
    decreases |s|, 2
  {
    var key := Read(s, KEY_STOPS);
    var op := OperatorAt(key.rest);
    if WordFails(key.word) || op.None? then Reading(NoOperator(key.word), key.rest)
    else
      var arg := Read(key.rest[|OperatorText(op.value)|..], ARG_STOPS);
      if WordFails(arg.word) || arg.rest == "" then Reading(Unclosed(key.word, op.value, arg.word), arg.rest)
      else
        var r := Read(arg.rest[1..], until);
        Reading(Braced(key.word, op.value, arg.word, r.word), r.rest)
  }

  /** The text of the word, followed by more text. */
  function Spell(w: Word, after: string): string {
    match w
    case End => after
    case Text(c, next) => [c] + Spell(next, after)
    case Escape(next) => "${}" + Spell(next, after)
    case Simple(name, next) => "$" + name + Spell(next, after)
    case Braced(key, op, arg, next) => "${" + Spell(key, OperatorText(op) + Spell(arg, "}" + Spell(next, after)))
    case NoOperator(key) => "${" + Spell(key, after)
    case Unclosed(key, op, arg) => "${" + Spell(key, OperatorText(op) + Spell(arg, after))
  }

  lemma {:induction false} StopsAtRest(s: string, until: string)
    ensures var r := Read(s, until);
            Stops(r.rest, until) || WordFails(r.word)
    decreases |s|, 1
  {
    if Stops(s, until) {
    } else if !Opens(s) {
      StopsAtRest(s[1..], until);
    } else if NameStart(s[1]) {
      StopsAtRest(s[1 + NameLength(s[1..])..], until);
    } else if |s| > 2 && s[2] == '}' {
      StopsAtRest(s[3..], until);
    } else {
      var key := Read(s[2..], KEY_STOPS);
      var op := OperatorAt(key.rest);
      if !WordFails(key.word) && op.Some? {
        var arg := Read(key.rest[|OperatorText(op.value)|..], ARG_STOPS);
        if !WordFails(arg.word) && arg.rest != "" { StopsAtRest(arg.rest[1..], until); }
      }
    }
  }

  /** The word ends in a malformed reference. */
  predicate WordFails(w: Word) {
    match w
    case End => false
    case Text(_, next) => WordFails(next)
    case Escape(next) => WordFails(next)
    case Simple(_, next) => WordFails(next)
    case Braced(_, _, _, next) => WordFails(next)
    case NoOperator(_) => true
    case Unclosed(_, _, _) => true
  }

  // ---- Meaning ----

  /** What a bracketed reference substitutes, given the state of its parameter. */
  function Chosen(op: Operator, key: string, value: Option<string>, arg: string): Result<string, Fault> {
    match op
    case Plain => if value.Some? then Ok(value.value) else Err(UnknownParameter(key))
    case Default(colon) =>
      if value.None? || (colon && value.value == "") then Ok(arg) else Ok(value.value)
    case Alternate(colon) =>
      if value.None? || (colon && value.value == "") then Ok("") else Ok(arg)
  }

  function Denote(w: Word, env: Env): Result<string, Fault> {
    match w
    case End => Ok("")
    case Text(c, next) => Prefixed([c], Denote(next, env))
    case Escape(next) => Prefixed("$", Denote(next, env))
    case Simple(name, next) =>
      var value :- Chosen(Plain, name, Get(env, name), "");
      Prefixed(value, Denote(next, env))
    case Braced(key, op, arg, next) =>
      var k :- Denote(key, env);
      var a :- Denote(arg, env);
      var value :- Chosen(op, k, Get(env, k), a);
      Prefixed(value, Denote(next, env))
    case NoOperator(key) =>
      var _ :- Denote(key, env);
      Err(ExpectedOperator)
    case Unclosed(key, _, arg) =>
      var _ :- Denote(key, env);
      var _ :- Denote(arg, env);
      Err(MismatchedBraces)
  }

  function Prefixed(text: string, r: Result<string, Fault>): Result<string, Fault> {
    match r
    case Ok(rest) => Ok(text + rest)
    case Err(e) => Err(e)
  }

  /** The meaning of environ_expand. */
  function Expand(s: string, env: Env): Result<string, Fault> {
    Denote(Read(s, "").word, env)
  }

  lemma {:induction false} FailingWordHasNoMeaning(w: Word, env: Env)
    requires WordFails(w)
    ensures Denote(w, env).Err?
  {
    match w
    case Text(_, next) => FailingWordHasNoMeaning(next, env);
    case Escape(next) => FailingWordHasNoMeaning(next, env);
    case Simple(_, next) => FailingWordHasNoMeaning(next, env);
    case Braced(_, _, _, next) => FailingWordHasNoMeaning(next, env);
    case NoOperator(_) =>
    case Unclosed(_, _, _) =>
  }

  // ---- Every string has exactly one reading ----

  /** Reading loses nothing: the word, spelt out, is the text that was read. */
  lemma {:induction false} SpellRead(s: string, until: string)
    ensures Spell(Read(s, until).word, Read(s, until).rest) == s
    decreases |s|, 1
  {
    if Stops(s, until) {
    } else if !Opens(s) {
      SpellRead(s[1..], until);
    } else if NameStart(s[1]) {
      SpellRead(s[1 + NameLength(s[1..])..], until);
    } else if |s| > 2 && s[2] == '}' {
      SpellRead(s[3..], until);
    } else {
      SpellReadBraced(s[2..], until);
      assert s == "${" + s[2..];
    }
  }

  lemma {:induction false} SpellReadBraced(s: string, until: string)
    ensures Spell(ReadBraced(s, until).word, ReadBraced(s, until).rest) == "${" + s
    decreases |s|, 2
  {
    SpellRead(s, KEY_STOPS);
    var key := Read(s, KEY_STOPS);
    var op := OperatorAt(key.rest);
    if !WordFails(key.word) && op.Some? {
      var o := OperatorText(op.value);
      var more := key.rest[|o|..];
      assert key.rest == o + more;
      SpellRead(more, ARG_STOPS);
      var arg := Read(more, ARG_STOPS);
      if !WordFails(arg.word) && arg.rest != "" {
        StopsAtRest(more, ARG_STOPS);
        SpellRead(arg.rest[1..], until);
        assert arg.rest == "}" + arg.rest[1..];
      }
    }
  }

  /** The grammar of words: w may stand before the text after, where reading stops at the characters of until. */
  ghost predicate Fits(w: Word, until: string, after: string) {
    match w
    case End => Stops(after, until)
    case Text(c, next) =>
      && Fits(next, until, after)
      && (if c == '$' then !Opens("$" + Spell(next, after)) else c !in until)
    case Escape(next) => Fits(next, until, after)
    case Simple(name, next) =>
      && Fits(next, until, after)
      && name != "" && NameStart(name[0]) && NameLength(name) == |name|
      && (Spell(next, after) == "" || !NameChar(Spell(next, after)[0]))
    case Braced(key, op, arg, next) =>
      && Fits(next, until, after)
      && Fits(arg, ARG_STOPS, "}" + Spell(next, after))
      && Fits(key, KEY_STOPS, OperatorText(op) + Spell(arg, "}" + Spell(next, after)))
      && Bracketed(key, op, arg, "}" + Spell(next, after))
      && !WordFails(arg)
    case NoOperator(key) =>
      && Fits(key, KEY_STOPS, after)
      && (WordFails(key) || OperatorAt(after).None?)
      && !("}" <= Spell(key, after))
    case Unclosed(key, op, arg) =>
      && Fits(arg, ARG_STOPS, after)
      && Fits(key, KEY_STOPS, OperatorText(op) + Spell(arg, after))
      && Bracketed(key, op, arg, after)
      && (WordFails(arg) || after == "")
  }

  /** The key is sound, the operator is the one found behind it, and the reference is not the special ${}. */
  predicate Bracketed(key: Word, op: Operator, arg: Word, after: string) {
    var more := OperatorText(op) + Spell(arg, after);
    !WordFails(key) && OperatorAt(more) == Some(op) && !("}" <= Spell(key, more))
  }

  /** Every word of the grammar is read back as itself, so no string has two readings. */
  lemma {:induction false} ReadSpell(w: Word, until: string, after: string)
    requires '$' !in until && Fits(w, until, after)
    ensures Read(Spell(w, after), until) == Reading(w, after)
  {
    hide Read, ReadBraced;
    match w
    case End => ReadStopped(after, until);
    case Text(c, next) =>
      ReadSpell(next, until, after);
      ReadText(c, Spell(next, after), until);
    case Escape(next) =>
      ReadSpell(next, until, after);
      ReadEscape(Spell(next, after), until);
    case Simple(name, next) =>
      ReadSpell(next, until, after);
      ReadSimple(name, Spell(next, after), until);
    case Braced(key, op, arg, next) =>
      ReadSpell(next, until, after);
      ReadSpell(arg, ARG_STOPS, "}" + Spell(next, after));
      ReadSpell(key, KEY_STOPS, OperatorText(op) + Spell(arg, "}" + Spell(next, after)));
      ReadSpelledBrace(key, op, arg, "}" + Spell(next, after), until);
      assert ("}" + Spell(next, after))[1..] == Spell(next, after);
    case NoOperator(key) =>
      ReadSpell(key, KEY_STOPS, after);
      BracketOpens(Spell(key, after), until);
      ReadNoOperator(Spell(key, after), until);
    case Unclosed(key, op, arg) =>
      ReadSpell(arg, ARG_STOPS, after);
      ReadSpell(key, KEY_STOPS, OperatorText(op) + Spell(arg, after));
      ReadSpelledBrace(key, op, arg, after, until);
  }

  lemma ReadStopped(s: string, until: string)
    requires Stops(s, until)
    ensures Read(s, until) == Reading(End, s)
  {
  }

  lemma ReadText(c: char, s: string, until: string)
    requires if c == '$' then !Opens("$" + s) else c !in until
    ensures Read([c] + s, until) == Reading(Text(c, Read(s, until).word), Read(s, until).rest)
  {
    assert ([c] + s)[1..] == s;
  }

  lemma ReadEscape(s: string, until: string)
    ensures Read("${}" + s, until) == Reading(Escape(Read(s, until).word), Read(s, until).rest)
  {
    assert ("${}" + s)[3..] == s;
  }

  lemma ReadSimple(name: string, s: string, until: string)
    requires name != "" && NameStart(name[0]) && NameLength(name) == |name| && (s == "" || !NameChar(s[0]))
    ensures Read("$" + name + s, until) == Reading(Simple(name, Read(s, until).word), Read(s, until).rest)
  {
    hide NameLength, NameChar;
    NameEnds(name, s);
    var whole := "$" + name + s;
    assert whole[1..] == name + s;
    ReadName(whole, |name|, until);
    assert whole[1..1 + |name|] == name && whole[1 + |name|..] == s;
  }

  lemma ReadName(s: string, n: nat, until: string)
    requires |s| > 1 && s[0] == '$' && NameStart(s[1]) && NameLength(s[1..]) == n
    ensures n < |s|
    ensures Read(s, until) == Reading(Simple(s[1..1 + n], Read(s[1 + n..], until).word), Read(s[1 + n..], until).rest)
  {
    hide NameLength, NameStart, NameChar;
  }

  lemma ReadNoOperator(s: string, until: string)
    requires var key := Read(s, KEY_STOPS); WordFails(key.word) || OperatorAt(key.rest).None?
    ensures ReadBraced(s, until) == Reading(NoOperator(Read(s, KEY_STOPS).word), Read(s, KEY_STOPS).rest)
  {
  }

  lemma ReadSpelledBrace(key: Word, op: Operator, arg: Word, after: string, until: string)
    requires '$' !in until && Bracketed(key, op, arg, after)
    requires Read(Spell(arg, after), ARG_STOPS) == Reading(arg, after)
    requires Read(Spell(key, OperatorText(op) + Spell(arg, after)), KEY_STOPS)
             == Reading(key, OperatorText(op) + Spell(arg, after))
    ensures Read("${" + Spell(key, OperatorText(op) + Spell(arg, after)), until) ==
            if WordFails(arg) || after == "" then Reading(Unclosed(key, op, arg), after)
            else
              var r := Read(after[1..], until);
              Reading(Braced(key, op, arg, r.word), r.rest)
  {
    hide Read, Spell;
    var more := OperatorText(op) + Spell(arg, after);
    BracketOpens(Spell(key, more), until);
    assert more[|OperatorText(op)|..] == Spell(arg, after);
  }

  lemma BracketOpens(inside: string, until: string)
    requires '$' !in until && !("}" <= inside)
    ensures Read("${" + inside, until) == ReadBraced(inside, until)
  {
    var s := "${" + inside;
    assert s[2..] == inside && s[0] == '$' && s[1] == '{';
    assert inside != "" ==> s[2] == inside[0] && inside[0] != '}';
  }

  lemma {:induction false} NameEnds(name: string, after: string)
    requires NameLength(name) == |name| && (after == "" || !NameChar(after[0]))
    ensures NameLength(name + after) == |name|
  {
    if name != "" {
      NameEnds(name[1..], after);
      assert (name + after)[1..] == name[1..] + after;
    }
  }

  /** The word a string is read as belongs to the grammar. */
  lemma {:induction false} ReadFits(s: string, until: string)
    requires '$' !in until
    ensures Fits(Read(s, until).word, until, Read(s, until).rest)
    decreases |s|, 1
  {
    if Stops(s, until) {
    } else if !Opens(s) {
      ReadFits(s[1..], until);
      SpellRead(s[1..], until);
      assert [s[0]] + s[1..] == s;
    } else if NameStart(s[1]) {
      var n := NameLength(s[1..]);
      ReadFits(s[1 + n..], until);
      SpellRead(s[1 + n..], until);
      NameAlone(s[1..]);
      assert s[1..][..n] == s[1..1 + n];
    } else if |s| > 2 && s[2] == '}' {
      ReadFits(s[3..], until);
    } else {
      ReadBracedFits(s[2..], until);
    }
  }

  lemma {:induction false} NameAlone(s: string)
    ensures NameLength(s[..NameLength(s)]) == NameLength(s)
  {
    if s != "" && NameChar(s[0]) {
      NameAlone(s[1..]);
      assert s[..NameLength(s)][1..] == s[1..][..NameLength(s[1..])];
    }
  }

  lemma {:induction false} ReadBracedFits(s: string, until: string)
    requires '$' !in until && !("}" <= s)
    ensures Fits(ReadBraced(s, until).word, until, ReadBraced(s, until).rest)
    decreases |s|, 2
  {
    hide Read, NameLength;
    var key := Read(s, KEY_STOPS);
    SpellRead(s, KEY_STOPS);
    ReadFits(s, KEY_STOPS);
    var op := OperatorAt(key.rest);
    if !WordFails(key.word) && op.Some? {
      var o := OperatorText(op.value);
      var more := key.rest[|o|..];
      assert key.rest == o + more;
      var arg := Read(more, ARG_STOPS);
      SpellRead(more, ARG_STOPS);
      ReadFits(more, ARG_STOPS);
      if !WordFails(arg.word) && arg.rest != "" {
        StopsAtRest(more, ARG_STOPS);
        assert arg.rest == "}" + arg.rest[1..];
        SpellRead(arg.rest[1..], until);
        ReadFits(arg.rest[1..], until);
      }
    }
  }

  // ---- Meaning told from the text alone ----

  /** What may stand in place of a without changing how the text before it is read. */
  predicate Alike(a: string, b: string) {
    if a == "" then b == "" || (!NameChar(b[0]) && b[0] != '{' && b[0] != '$')
    else b != "" && a[0] == b[0]
  }

  lemma {:induction false} SpellAlike(w: Word, a: string, b: string)
    requires Alike(a, b)
    ensures Alike(Spell(w, a), Spell(w, b))
  {
    if w.End? {}
  }

  lemma {:induction false} FitsAlike(w: Word, until: string, a: string, b: string)
    requires Fits(w, until, a) && !WordFails(w) && Alike(a, b) && Stops(b, until)
    ensures Fits(w, until, b)
  {
    hide Spell, NameLength, NameStart, NameChar;
    match w
    case End =>
    case Text(c, next) =>
      FitsAlike(next, until, a, b);
      SpellAlike(next, a, b);
      if c == '$' { LoneDollar(Spell(next, a), Spell(next, b)); }
    case Escape(next) => FitsAlike(next, until, a, b);
    case Simple(name, next) =>
      FitsAlike(next, until, a, b);
      SpellAlike(next, a, b);
      NameOver(Spell(next, a), Spell(next, b));
    case Braced(key, op, arg, next) =>
      FitsAlike(next, until, a, b);
      SpellAlike(next, a, b);
      var a1, b1 := "}" + Spell(next, a), "}" + Spell(next, b);
      FitsAlike(arg, ARG_STOPS, a1, b1);
      BracketAlike(key, op, arg, a1, b1);
      FitsAlike(key, KEY_STOPS, OperatorText(op) + Spell(arg, a1), OperatorText(op) + Spell(arg, b1));
  }

  lemma LoneDollar(a: string, b: string)
    requires Alike(a, b) && !Opens("$" + a)
    ensures !Opens("$" + b)
  {
  }

  lemma NameOver(a: string, b: string)
    requires Alike(a, b) && (a == "" || !NameChar(a[0]))
    ensures b == "" || !NameChar(b[0])
  {
  }

  lemma OperatorStays(op: Operator, a: string, b: string)
    requires OperatorAt(OperatorText(op) + a) == Some(op) && (op.Plain? ==> Alike(a, b) && a != "")
    ensures OperatorAt(OperatorText(op) + b) == Some(op)
    ensures Alike(OperatorText(op) + a, OperatorText(op) + b)
    ensures a != "" && b != "" ==> Stops(OperatorText(op) + b, KEY_STOPS)
  {
  }

  lemma BracketAlike(key: Word, op: Operator, arg: Word, a: string, b: string)
    requires a != "" && b != "" && a[0] == b[0] && Bracketed(key, op, arg, a)
    ensures Bracketed(key, op, arg, b)
    ensures Alike(OperatorText(op) + Spell(arg, a), OperatorText(op) + Spell(arg, b))
    ensures Stops(OperatorText(op) + Spell(arg, b), KEY_STOPS)
  {
    hide Spell;
    SpellAlike(arg, a, b);
    SpellsMore(arg, a);
    SpellsMore(arg, b);
    OperatorStays(op, Spell(arg, a), Spell(arg, b));
    SpellAlike(key, OperatorText(op) + Spell(arg, a), OperatorText(op) + Spell(arg, b));
    SpellsMore(key, OperatorText(op) + Spell(arg, a));
  }

  lemma {:induction false} SpellsMore(w: Word, a: string)
    requires a != ""
    ensures Spell(w, a) != ""
  {
    if w.End? {}
  }

  /** With nothing to stop at, the word is as good. */
  lemma {:induction false} FitsAnywhere(w: Word, until: string)
    requires Fits(w, until, "") && !WordFails(w)
    ensures Fits(w, "", "")
  {
    match w
    case End =>
    case Text(_, next) => FitsAnywhere(next, until);
    case Escape(next) => FitsAnywhere(next, until);
    case Simple(_, next) => FitsAnywhere(next, until);
    case Braced(_, _, _, next) => FitsAnywhere(next, until);
  }

  /** The text is read to its end, although reading stops at these characters, and is well formed. */
  predicate Closed(s: string, until: string) { Read(s, until).rest == "" && !WordFails(Read(s, until).word) }

  lemma ClosedText(s: string, until: string)
    requires Closed(s, until) && '$' !in until
    ensures var w := Read(s, until).word; Fits(w, until, "") && Read(s, "") == Reading(w, "") && Spell(w, "") == s
  {
    var w := Read(s, until).word;
    ReadFits(s, until);
    SpellRead(s, until);
    FitsAnywhere(w, until);
    ReadSpell(w, "", "");
  }

  /** Whatever stands behind a word stays at the end of its spelling. */
  lemma {:induction false} SpellSplits(w: Word, a: string, b: string)
    ensures Spell(w, a + b) == Spell(w, a) + b
  {
    match w
    case End =>
    case Text(c, next) => SpellSplits(next, a, b);
    case Escape(next) => SpellSplits(next, a, b);
    case Simple(name, next) => SpellSplits(next, a, b);
    case Braced(key, op, arg, next) =>
      SpellSplits(next, a, b);
      var x := "}" + Spell(next, a);
      assert "}" + Spell(next, a + b) == x + b;
      SpellSplits(arg, x, b);
      var y := OperatorText(op) + Spell(arg, x);
      assert OperatorText(op) + Spell(arg, x + b) == y + b;
      SpellSplits(key, y, b);
    case NoOperator(key) => SpellSplits(key, a, b);
    case Unclosed(key, op, arg) =>
      SpellSplits(arg, a, b);
      var y := OperatorText(op) + Spell(arg, a);
      assert OperatorText(op) + Spell(arg, a + b) == y + b;
      SpellSplits(key, y, b);
  }

  /** A character that begins no reference stands for itself. */
  lemma ExpandText(c: char, s: string, env: Env)
    requires c == '$' ==> !Opens("$" + s)
    ensures Expand([c] + s, env) == Prefixed([c], Expand(s, env))
  {
    hide Read;
    ReadText(c, s, "");
  }

  /** The special ${} stands for a dollar sign. */
  lemma ExpandDollar(s: string, env: Env)
    ensures Expand("${}" + s, env) == Prefixed("$", Expand(s, env))
  {
    hide Read;
    ReadEscape(s, "");
  }

  /** $NAME stands for the value of the longest name that can be read; an unknown name is an error. */
  lemma ExpandName(name: string, s: string, env: Env)
    requires name != "" && NameStart(name[0]) && NameLength(name) == |name| && (s == "" || !NameChar(s[0]))
    ensures Expand("$" + name + s, env) ==
            match Get(env, name)
              case None => Err(UnknownParameter(name))
              case Some(value) => Prefixed(value, Expand(s, env))
  {
    hide Read, NameLength;
    ReadSimple(name, s, "");
  }

  /** What a bracketed reference stands for, when its key and its argument have been expanded. */
  function Nested(op: Operator, key: Result<string, Fault>, arg: Result<string, Fault>, rest: Result<string, Fault>,
                  env: Env): Result<string, Fault> {
    var k :- key;
    var a :- arg;
    match (op, Get(env, k))
    case (Plain, None) => Err(UnknownParameter(k))
    case (Plain, Some(value)) => Prefixed(value, rest)
    case (Default(colon), found) => Prefixed(if found.None? || (colon && found.value == "") then a
      else found.value, rest)
    case (Alternate(colon), found) => Prefixed(if found.None? || (colon && found.value == "") then "" else a, rest)
  }

  /**
   References may be nested: the text between the bracket and the operator, and that between the
   operator and the bracket, are expanded as strings of their own, whatever they contain.
   */
  lemma ExpandNested(x: string, op: Operator, y: string, z: string, env: Env)
    requires Closed(x, KEY_STOPS) && Closed(y, ARG_STOPS)
    requires op.Plain? ==> x != "" && y == ""
    ensures Expand("${" + (x + (OperatorText(op) + (y + ("}" + z)))), env) ==
            Nested(op, Expand(x, env), Expand(y, env), Expand(z, env), env)
  {
    hide Read, Fits, Spell, Get, Closed, Stops, Opens, NameChar;
    ClosedText(x, KEY_STOPS);
    ClosedText(y, ARG_STOPS);
    var key, arg, next := Read(x, KEY_STOPS).word, Read(y, ARG_STOPS).word, Read(z, "");
    ReadFits(z, "");
    SpellRead(z, "");
    var w := Braced(key, op, arg, next.word);
    NestedFits(x, op, y, z, key, arg, next);
    ReadSpell(w, "", next.rest);
    NestedSpells(x, op, y, z, key, arg, next);
  }

  lemma NestedSpells(x: string, op: Operator, y: string, z: string, key: Word, arg: Word, next: Reading)
    requires Spell(key, "") == x && Spell(arg, "") == y && Spell(next.word, next.rest) == z
    ensures Spell(arg, "}" + z) == y + ("}" + z)
    ensures Spell(key, OperatorText(op) + (y + ("}" + z))) == x + (OperatorText(op) + (y + ("}" + z)))
    ensures Spell(Braced(key, op, arg, next.word), next.rest) == "${" + (x + (OperatorText(op) + (y + ("}" + z))))
  {
    SpellSplits(arg, "", "}" + z);
    SpellSplits(key, "", OperatorText(op) + (y + ("}" + z)));
    assert "" + ("}" + z) == "}" + z;
    assert "" + (OperatorText(op) + (y + ("}" + z))) == OperatorText(op) + (y + ("}" + z));
  }

  lemma NestedFits(x: string, op: Operator, y: string, z: string, key: Word, arg: Word, next: Reading)
    requires Closed(x, KEY_STOPS) && key == Read(x, KEY_STOPS).word && Fits(key, KEY_STOPS, "") && Spell(key, "") == x
    requires Closed(y, ARG_STOPS) && arg == Read(y, ARG_STOPS).word && Fits(arg, ARG_STOPS, "") && Spell(arg, "") == y
    requires Fits(next.word, "", next.rest) && Spell(next.word, next.rest) == z
    requires op.Plain? ==> x != "" && y == ""
    ensures Fits(Braced(key, op, arg, next.word), "", next.rest)
  {
    var more := OperatorText(op) + (y + ("}" + z));
    NestedSpells(x, op, y, z, key, arg, next);
    FitsAlike(arg, ARG_STOPS, "", "}" + z);
    OperatorLeads(op, y, z);
    FitsAlike(key, KEY_STOPS, "", more);
    if x != "" { StartsInside(x); }
  }

  lemma OperatorLeads(op: Operator, y: string, z: string)
    requires op.Plain? ==> y == ""
    ensures var more := OperatorText(op) + (y + ("}" + z));
            && OperatorAt(more) == Some(op) && Alike("", more) && Stops(more, KEY_STOPS)
            && (!op.Plain? ==> more[0] != '}')
  {
    assert "" + ("}" + z) == "}" + z;
  }

  lemma StartsInside(x: string)
    requires Closed(x, KEY_STOPS) && x != ""
    ensures x[0] != '}'
  {
  }

  // ---- Consequences for users of the syntax ----

  /** Text with every dollar sign written as the special ${}. */
  function Escaped(s: string): string {
    if s == "" then "" else (if s[0] == '$' then "${}" else [s[0]]) + Escaped(s[1..])
  }

  function EscapedWord(s: string): Word {
    if s == "" then End
    else if s[0] == '$' then Escape(EscapedWord(s[1..]))
    else Text(s[0], EscapedWord(s[1..]))
  }

  lemma {:induction false} EscapedWordFacts(s: string, env: Env)
    ensures Spell(EscapedWord(s), "") == Escaped(s)
    ensures Fits(EscapedWord(s), "", "")
    ensures Denote(EscapedWord(s), env) == Ok(s)
  {
    if s != "" {
      EscapedWordFacts(s[1..], env);
      assert [s[0]] + s[1..] == s;
    }
  }

  /** Any text can be passed through expansion unharmed. */
  lemma ExpandEscaped(s: string, env: Env)
    ensures Expand(Escaped(s), env) == Ok(s)
  {
    EscapedWordFacts(s, env);
    ReadSpell(EscapedWord(s), "", "");
  }

  function Literal(s: string): Word {
    if s == "" then End else Text(s[0], Literal(s[1..]))
  }

  predicate Free(s: string, stops: string) {
    forall i :: 0 <= i < |s| ==> s[i] != '$' && s[i] !in stops
  }

  lemma {:induction false} LiteralFacts(s: string, stops: string, after: string, env: Env)
    requires Free(s, stops) && Stops(after, stops)
    ensures Spell(Literal(s), after) == s + after
    ensures Fits(Literal(s), stops, after) && !WordFails(Literal(s))
    ensures Denote(Literal(s), env) == Ok(s)
  {
    if s == "" {
      assert s + after == after;
    } else {
      LiteralFacts(s[1..], stops, after, env);
      assert s == [s[0]] + s[1..];
      assert s + after == [s[0]] + (s[1..] + after);
    }
  }

  lemma BracedLiteral(key: string, op: Operator, arg: string, env: Env)
    requires key != "" && Free(key, KEY_STOPS) && Free(arg, ARG_STOPS) && (op.Plain? ==> arg == "")
    ensures Expand("${" + (key + (OperatorText(op) + (arg + "}"))), env) == Chosen(op, key, Get(env, key), arg)
  {
    hide Read, ReadBraced, Literal, Get;
    var more := OperatorText(op) + (arg + "}");
    LiteralFacts(arg, ARG_STOPS, "}", env);
    LiteralFacts(key, KEY_STOPS, more, env);
    var w := Braced(Literal(key), op, Literal(arg), End);
    assert Spell(End, "") == "" && "}" + "" == "}";
    BracedLiteralFits(key, op, arg, env);
    ReadSpell(w, "", "");
    assert Denote(End, env) == Ok("");
    match Chosen(op, key, Get(env, key), arg)
    case Ok(v) => assert v + "" == v;
    case Err(_) =>
  }

  lemma BracedLiteralFits(key: string, op: Operator, arg: string, env: Env)
    requires key != "" && Free(key, KEY_STOPS) && Free(arg, ARG_STOPS) && (op.Plain? ==> arg == "")
    ensures Fits(Braced(Literal(key), op, Literal(arg), End), "", "")
  {
    hide Read, ReadBraced, Literal, Get, Denote;
    var more := OperatorText(op) + (arg + "}");
    LiteralFacts(arg, ARG_STOPS, "}", env);
    LiteralFacts(key, KEY_STOPS, more, env);
    assert Spell(End, "") == "" && "}" + "" == "}";
    assert (key + more)[0] == key[0] && key[0] != '}';
  }

  /** The parameter expansion table of section 2.6.2 of POSIX.1-2017, except that a plain unset name is an error. */
  lemma ParameterTable(key: string, word: string, env: Env)
    requires key != "" && Free(key, KEY_STOPS) && Free(word, ARG_STOPS)
    ensures var use := (op: string) => Expand("${" + (key + (op + (word + "}"))), env);
            match Get(env, key)
            case Some(value) =>
              if value != "" then
                && use(":-") == Ok(value) && use("-") == Ok(value) && use(":+") == Ok(word) && use("+") == Ok(word)
              else
                && use(":-") == Ok(word) && use("-") == Ok("") && use(":+") == Ok("") && use("+") == Ok(word)
            case None =>
              && use(":-") == Ok(word) && use("-") == Ok(word) && use(":+") == Ok("") && use("+") == Ok("")
              && Expand("${" + (key + ("" + ("" + "}"))), env) == Err(UnknownParameter(key))
  {
    BracedLiteral(key, Default(true), word, env);
    BracedLiteral(key, Default(false), word, env);
    BracedLiteral(key, Alternate(true), word, env);
    BracedLiteral(key, Alternate(false), word, env);
    BracedLiteral(key, Plain, "", env);
  }
}

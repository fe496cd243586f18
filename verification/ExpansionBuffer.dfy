/**
 The program's expansion: one NUL-terminated buffer, rewritten in place
 (environ_expand and environ_expand_until, init/environ.c:490-766).
 */
module ExpansionBuffer {
  import opened Wrappers
  import opened Environ
  import opened Expansion

  /** Where a substituted value lives: in the environment table, or inside the buffer being rewritten. */
  datatype Source = Elsewhere(text: string) | InBuffer(offset: nat, length: nat)

  ghost predicate NulFree(s: string) { forall i :: 0 <= i < |s| ==> s[i] != '\0' }

  ghost predicate NulFreeTable(env: Env) { forall i :: 0 <= i < |env| ==> NulFree(env[i]) }

  /**
   The string whole has been expanded up to the point where out has been
   produced and unread is left.
   */
  ghost predicate Progress(whole: string, out: string, unread: string, until: string, env: Env) {
    && Read(whole, until).rest == Read(unread, until).rest
    && Denote(Read(whole, until).word, env) == Prefixed(out, Denote(Read(unread, until).word, env))
  }

  lemma PrefixedTwice(a: string, b: string, r: Result<string, Fault>)
    ensures Prefixed(a, Prefixed(b, r)) == Prefixed(a + b, r)
    ensures Prefixed("", r) == r
  {
    if r.Ok? {
      assert a + (b + r.value) == (a + b) + r.value;
      assert "" + r.value == r.value;
    }
  }

  lemma ProgressStep(whole: string, out: string, unread: string, more: string, unread': string, until: string, env: Env)
    requires Progress(whole, out, unread, until, env)
    requires Progress(unread, more, unread', until, env)
    ensures Progress(whole, out + more, unread', until, env)
  {
    PrefixedTwice(out, more, Denote(Read(unread', until).word, env));
  }

  lemma ProgressStart(whole: string, until: string, env: Env)
    ensures Progress(whole, "", whole, until, env)
  {
    PrefixedTwice("", "", Denote(Read(whole, until).word, env));
  }

  lemma ProgressText(s: string, until: string, env: Env)
    requires !Stops(s, until) && !Opens(s)
    ensures Progress(s, s[..1], s[1..], until, env)
  {
    assert s[..1] == [s[0]];
  }

  datatype Passed = Passed(value: string, unread: string)

  /** What the bracketed reference before this text substitutes, and the text left behind it. */
  ghost function Bracket(inside: string, env: Env): Result<Passed, Fault> {
    var key := Read(inside, KEY_STOPS);
    var k :- Denote(key.word, env);
    match OperatorAt(key.rest)
    case None => Err(ExpectedOperator)
    case Some(op) =>
      var arg := Read(key.rest[|OperatorText(op)|..], ARG_STOPS);
      var a :- Denote(arg.word, env);
      if arg.rest == "" then Err(MismatchedBraces)
      else
        var value :- Chosen(op, k, Get(env, k), a);
        Ok(Passed(value, arg.rest[1..]))
  }

  lemma BracketMeaning(s: string, until: string, env: Env)
    requires Opens(s) && s[1] == '{' && !("}" <= s[2..])
    ensures var r := Bracket(s[2..], env);
            if r.Err? then Denote(Read(s, until).word, env) == Err(r.error)
            else Progress(s, r.value.value, r.value.unread, until, env)
  {
    assert Read(s, until) == ReadBraced(s[2..], until) by {
      assert |s| > 2 ==> s[2..][0] == s[2];
    }
    var key := Read(s[2..], KEY_STOPS);
    if WordFails(key.word) { FailingWordHasNoMeaning(key.word, env); }
    var op := OperatorAt(key.rest);
    if op.Some? {
      var arg := Read(key.rest[|OperatorText(op.value)|..], ARG_STOPS);
      if WordFails(arg.word) { FailingWordHasNoMeaning(arg.word, env); }
    }
  }

  lemma GetNulFree(env: Env, key: string)
    requires NulFreeTable(env) && Get(env, key).Some?
    ensures NulFree(Get(env, key).value)
  {
    var entry := env[Find(env, key)];
    NamedEntryAssigns(entry, key);
    assert forall i :: 0 <= i < |Value(entry)| ==> Value(entry)[i] == entry[KeyLength(entry) + 1 + i];
  }

  lemma ProgressEscape(s: string, until: string, env: Env)
    requires "${}" <= s
    ensures Progress(s, "$", s[3..], until, env)
  {
    assert s[0] == '$' && s[1] == '{' && s[2] == '}';
  }

  lemma ProgressSimple(s: string, until: string, env: Env)
    requires |s| > 1 && s[0] == '$' && NameStart(s[1])
    ensures var n := NameLength(s[1..]);
            var value := Get(env, s[1..1 + n]);
            if value.None? then Denote(Read(s, until).word, env) == Err(UnknownParameter(s[1..1 + n]))
            else Progress(s, value.value, s[1 + n..], until, env)
  {
  }

  lemma ProgressEnds(whole: string, out: string, unread: string, until: string, env: Env)
    requires Progress(whole, out, unread, until, env) && Stops(unread, until)
    ensures Read(whole, until).rest == unread && Denote(Read(whole, until).word, env) == Ok(out)
  {
    assert out + "" == out;
  }

  lemma ProgressFails(whole: string, out: string, unread: string, until: string, env: Env)
    requires Progress(whole, out, unread, until, env) && Denote(Read(unread, until).word, env).Err?
    ensures Denote(Read(whole, until).word, env) == Denote(Read(unread, until).word, env)
  {
  }

  lemma ArgumentStops(s: string, env: Env)
    requires Denote(Read(s, ARG_STOPS).word, env).Ok?
    ensures Read(s, ARG_STOPS).rest == "" || Read(s, ARG_STOPS).rest[0] == '}'
  {
    StopsAtRest(s, ARG_STOPS);
    if WordFails(Read(s, ARG_STOPS).word) { FailingWordHasNoMeaning(Read(s, ARG_STOPS).word, env); }
  }

  /** memmove: the two regions may overlap. */
  method Memmove(a: array<char>, dst: nat, src: nat, n: nat)
    requires dst + n <= a.Length && src + n <= a.Length
    modifies a
    ensures forall i :: dst <= i < dst + n ==> a[i] == old(a[i - dst + src])
    ensures forall i :: 0 <= i < a.Length && !(dst <= i < dst + n) ==> a[i] == old(a[i])
  {
    forall i | dst <= i < dst + n {
      a[i] := a[src + (i - dst)];
    }
  }

  method CopyText(a: array<char>, dst: nat, text: string)
    requires dst + |text| <= a.Length
    modifies a
    ensures forall i :: dst <= i < dst + |text| ==> a[i] == text[i - dst]
    ensures forall i :: 0 <= i < a.Length && !(dst <= i < dst + |text|) ==> a[i] == old(a[i])
  {
    forall i | dst <= i < dst + |text| {
      a[i] := text[i - dst];
    }
  }

  class Buffer {
    var str: array<char>
    var len: nat
    var pos: nat

    ghost predicate Valid()
      reads this, str
    {
      && pos <= len < str.Length
      && str[len] == '\0'
      && NulFree(str[..len])
    }

    ghost function Content(): string
      reads this, str
      requires Valid()
    {
      str[..len]
    }

    /** nih_strdup of the input */
    constructor (text: string)
      requires NulFree(text)
      ensures Valid() && Content() == text && pos == 0 && fresh(str)
    {
      str := new char[|text| + 1];
      len := |text|;
      pos := 0;
      new;
      CopyText(str, 0, text);
      str[len] := '\0';
      assert str[..len] == text;
    }

    ghost function Given(value: Source): string
      reads this, str
      requires value.InBuffer? ==> value.offset + value.length <= str.Length
    {
      match value
      case Elsewhere(text) => text
      case InBuffer(offset, length) => str[offset..offset + length]
    }

    /** Copy the value to the start of the reference it replaces. */
    method Place(start: nat, value: Source, ghost text: string)
      requires Valid()
      requires value.InBuffer? ==> value.offset + value.length <= len
      requires text == Given(value) && start + |text| <= len && NulFree(text)
      modifies str
      ensures Valid()
      ensures Content() == old(Content())[..start] + text + old(Content())[start + |text|..]
    {
      ghost var before := Content();
      match value {
        case Elsewhere(t) => CopyText(str, start, t);
        case InBuffer(offset, length) => Memmove(str, start, offset, length);
      }
      Replaced(before, text, start, start + |text|, str[..len]);
    }

    /** Move the tail of the string down over what is left of the reference. */
    method CloseGap(at: nat, end: nat)
      requires Valid() && at <= end == pos
      modifies this, str
      ensures str == old(str) && Valid() && pos == at
      ensures Content() == old(Content())[..at] + old(Content())[end..]
    {
      ghost var before := Content();
      Memmove(str, at, end, len - end + 1);
      len := len - (end - at);
      pos := at;
      Replaced(before, "", at, end, str[..len]);
    }

    /** The value is longer than the reference: extend the buffer and move the tail up first. */
    method Grow(start: nat, end: nat, text: string)
      requires Valid() && start <= end == pos && |text| > end - start && NulFree(text)
      modifies this, str
      ensures fresh(str) && Valid()
      ensures Content() == old(Content())[..start] + text + old(Content())[end..]
      ensures pos == start + |text|
    {
      ghost var before := Content();
      var offset := |text| - (end - start);
      var bigger := new char[len + offset + 1];
      var from := str;
      forall i | 0 <= i <= len {
        bigger[i] := from[i];
      }
      str := bigger;
      Memmove(str, end + offset, end, len - end + 1);
      CopyText(str, start, text);
      len := len + offset;
      pos := pos + offset;
      Replaced(before, text, start, end, str[..len]);
    }

    /** The value is no longer than the reference: place it first, then move the tail down. */
    method Shrink(start: nat, end: nat, value: Source, ghost text: string)
      requires Valid() && start <= end == pos
      requires value.InBuffer? ==> start <= value.offset && value.offset + value.length <= end
      requires text == Given(value) && |text| <= end - start && NulFree(text)
      modifies this, str
      ensures str == old(str) && Valid() && pos == start + |text|
      ensures Content() == old(Content())[..start] + text + old(Content())[end..]
    {
      ghost var before := Content();
      var length := match value case Elsewhere(t) => |t| case InBuffer(_, n) => n;
      Place(start, value, text);
      ghost var placed := Content();
      assert placed[..start + length] == before[..start] + text;
      assert placed[end..] == before[end..];
      CloseGap(start + length, end);
    }

    /**
     The subst label: replace the reference between start and end by the value.
     A value inside the buffer is part of the reference itself, so it never
     meets the branch that moves the buffer.
     */
    method Substitute(start: nat, end: nat, value: Source)
      requires Valid() && start <= end == pos
      requires value.InBuffer? ==> start <= value.offset && value.offset + value.length < end
      requires value.Elsewhere? ==> NulFree(value.text)
      modifies this, str
      ensures str == old(str) || fresh(str)
      ensures Valid()
      ensures Content() == old(Content())[..start] + old(Given(value)) + old(Content())[end..]
      ensures pos == start + |old(Given(value))|
    {
      ghost var text := Given(value);
      assert NulFree(text) by {
        if value.InBuffer? {
          assert forall i :: 0 <= i < |text| ==> text[i] == Content()[value.offset + i];
        }
      }
      var length := match value case Elsewhere(t) => |t| case InBuffer(_, n) => n;
      if length > end - start {
        Grow(start, end, value.text);
      } else {
        Shrink(start, end, value, text);
      }
    }

    lemma Expanded(before: string, argStart: nat, text: string, rest: string, start: nat, nameStart: nat, nameEnd: nat,
                   after: string)
      requires start <= nameStart <= nameEnd <= argStart <= |before|
      requires after == before[..argStart] + text + rest
      ensures after[nameStart..nameEnd] == before[nameStart..nameEnd]
      ensures after[..start] == before[..start]
      ensures after[argStart..argStart + |text|] == text
      ensures after[argStart + |text|..] == rest
    {
    }

    lemma Replaced(before: string, text: string, start: nat, end: nat, after: string)
      requires start <= end <= |before| && NulFree(before) && NulFree(text)
      requires |after| == start + |text| + (|before| - end)
      requires forall i :: 0 <= i < start ==> after[i] == before[i]
      requires forall i :: start <= i < start + |text| ==> after[i] == text[i - start]
      requires forall i :: start + |text| <= i < |after| ==> after[i] == before[i - start - |text| + end]
      ensures after == before[..start] + text + before[end..] && NulFree(after)
    {
      var parts := before[..start] + text + before[end..];
      assert forall i :: 0 <= i < |after| ==> after[i] == parts[i];
      assert NulFree(before[end..]);
    }

    ghost function Unread(): string
      reads this, str
      requires Valid()
    {
      Content()[pos..]
    }

    /** Skip to the next dollar sign, stop character or the end of the string. */
    method SkipText(until: string, env: Env)
      requires Valid() && '$' !in until
      modifies `pos
      ensures Valid() && old(pos) <= pos
      ensures Progress(old(Unread()), Content()[old(pos)..pos], Unread(), until, env)
      ensures Unread() == "" || Unread()[0] == '$' || Unread()[0] in until
    {
      ghost var start := pos;
      ProgressStart(Unread(), until, env);
      assert Content()[start..pos] == "";
      while str[pos] != '$' && str[pos] != '\0' && str[pos] !in until
        invariant Valid() && start <= pos
        invariant Progress(old(Unread()), Content()[start..pos], Unread(), until, env)
        decreases len - pos
      {
        SkipOne(old(Unread()), start, until, env);
        pos := pos + 1;
      }
    }

    lemma SkipOne(whole: string, start: nat, until: string, env: Env)
      requires Valid() && start <= pos < len && !Stops(Unread(), until) && !Opens(Unread())
      requires Progress(whole, Content()[start..pos], Unread(), until, env)
      ensures Progress(whole, Content()[start..pos + 1], Content()[pos + 1..], until, env)
    {
      var c, u := Content(), Unread();
      ProgressText(u, until, env);
      assert u[..1] == c[pos..pos + 1] && u[1..] == c[pos + 1..];
      assert c[start..pos] + c[pos..pos + 1] == c[start..pos + 1];
      ProgressStep(whole, c[start..pos], u, u[..1], u[1..], until, env);
    }

    /** Step over the characters of a simple name. */
    method SkipName()
      requires Valid()
      modifies `pos
      ensures Valid() && pos == old(pos) + NameLength(old(Unread()))
    {
      ghost var start := pos;
      while NameChar(str[pos])
        invariant Valid() && start <= pos
        invariant NameLength(old(Unread())) == pos - start + NameLength(Unread())
        decreases len - pos
      {
        assert Unread()[0] == str[pos] && Unread()[1..] == Content()[pos + 1..];
        pos := pos + 1;
      }
    }

    /** The operator behind the name, stepped over; the end of the name or string is the plain one. */
    method TakeOperator() returns (op: Option<Operator>)
      requires Valid()
      modifies `pos
      ensures op == OperatorAt(old(Unread()))
      ensures op.Some? ==> Valid() && pos == old(pos) + |OperatorText(op.value)|
    {
      if str[pos] == ':' && str[pos + 1] == '-' {
        pos := pos + 2;
        return Some(Default(true));
      } else if str[pos] == ':' && str[pos + 1] == '+' {
        pos := pos + 2;
        return Some(Alternate(true));
      } else if str[pos] == '-' {
        pos := pos + 1;
        return Some(Default(false));
      } else if str[pos] == '+' {
        pos := pos + 1;
        return Some(Alternate(false));
      } else if str[pos] != '}' && str[pos] != '\0' {
        return None;
      }
      return Some(Plain);
    }

    /** The bracketed branch, from the opening bracket to the end of the substitution. */
    method ExpandBraced(start: nat, env: Env) returns (fault: Option<Fault>)
      requires Valid() && NulFreeTable(env)
      requires pos == start + 1 && "{" <= Unread() && !("}" <= Unread()[1..])
      modifies this, str
      ensures str == old(str) || fresh(str)
      ensures var r := Bracket(old(Content())[start + 2..], env);
              if r.Err? then fault == Some(r.error)
              else
                && fault.None? && Valid() && pos == start + |r.value.value|
                && Content() == old(Content())[..start] + r.value.value + r.value.unread
      decreases len - pos, 0
    {
      hide Read, ReadBraced, Denote, Get, Chosen;
      ghost var before, inside := Content(), Content()[start + 2..];
      pos := pos + 1;
      var nameStart := pos;
      ghost var key := Read(inside, KEY_STOPS);
      fault := ExpandUntil(env, KEY_STOPS);
      if fault.Some? { return; }
      var nameEnd := pos;
      ghost var k := Denote(key.word, env).value;
      Expanded(before, nameStart, k, key.rest, start, nameStart, nameStart, Content());

      var op := TakeOperator();
      if op.None? {
        return Some(ExpectedOperator);
      }
      assert Content()[nameStart..nameEnd] == k && Content()[..start] == before[..start];
      fault := FinishBraced(start, nameStart, nameEnd, op.value, env);
    }

    /** Where the value to substitute is to be found. */
    method Select(op: Operator, name: string, env: Env, argStart: nat, argEnd: nat) returns (r: Result<Source, Fault>)
      requires Valid() && NulFreeTable(env) && argStart <= argEnd <= len
      ensures var c := Chosen(op, name, Get(env, name), Content()[argStart..argEnd]);
              if c.Err? then r == Err(c.error)
              else
                && r.Ok?
                && (r.value.Elsewhere? ==> r.value.text == c.value && NulFree(c.value))
                && (r.value.InBuffer? ==> r.value == InBuffer(argStart, argEnd - argStart) && Given(r.value) == c.value)
    {
      var value := Get(env, name);
      if value.Some? { GetNulFree(env, name); }
      assert str[argStart..argEnd] == Content()[argStart..argEnd];
      var argument := InBuffer(argStart, argEnd - argStart);
      match op {
        case Plain =>
          if value.None? {
            return Err(UnknownParameter(name));
          }
          return Ok(Elsewhere(value.value));
        case Default(colon) =>
          if value.None? || (colon && value.value == "") {
            return Ok(argument);
          }
          return Ok(Elsewhere(value.value));
        case Alternate(colon) =>
          if value.None? || (colon && value.value == "") {
            return Ok(Elsewhere(""));
          }
          return Ok(argument);
      }
    }

    /** The argument, the closing bracket, the choice of value and the substitution. */
    method FinishBraced(start: nat, nameStart: nat, nameEnd: nat, op: Operator, env: Env) returns (fault: Option<Fault>)
      requires Valid() && NulFreeTable(env)
      requires start + 2 <= nameStart <= nameEnd <= pos
      modifies this, str
      ensures str == old(str) || fresh(str)
      ensures var arg := Read(old(Unread()), ARG_STOPS);
              var key := old(Content())[nameStart..nameEnd];
              var text := Denote(arg.word, env);
              if text.Err? then fault == Some(text.error)
              else if arg.rest == "" then fault == Some(MismatchedBraces)
              else
                var value := Chosen(op, key, Get(env, key), text.value);
                if value.Err? then fault == Some(value.error)
                else
                  && fault.None? && Valid() && pos == start + |value.value|
                  && Content() == old(Content())[..start] + value.value + arg.rest[1..]
      decreases len - pos, 3
    {
      hide Read, ReadBraced, Denote, Get, Chosen, NulFreeTable;
      ghost var before, unread := Content(), Unread();
      ghost var arg := Read(unread, ARG_STOPS);
      var argStart := pos;
      fault := ExpandUntil(env, ARG_STOPS);
      if fault.Some? { return; }
      var argEnd := pos;
      ghost var text := Denote(arg.word, env).value;
      ArgumentStops(unread, env);
      Expanded(before, argStart, text, arg.rest, start, nameStart, nameEnd, Content());
      if str[pos] != '}' {
        return Some(MismatchedBraces);
      }
      pos := pos + 1;
      var name := str[..len][nameStart..nameEnd];
      var source := Select(op, name, env, argStart, argEnd);
      if source.Err? {
        return Some(source.error);
      }
      assert Content()[pos..] == arg.rest[1..];
      Substitute(start, pos, source.value);
    }

    /** The unbracketed branch. */
    method ExpandSimple(start: nat, env: Env) returns (fault: Option<Fault>)
      requires Valid() && NulFreeTable(env) && pos == start + 1
      modifies this, str
      ensures str == old(str) || fresh(str)
      ensures var n := NameLength(old(Unread()));
              var name := old(Unread())[..n];
              var value := Get(env, name);
              if value.None? then fault == Some(UnknownParameter(name))
              else
                && fault.None? && Valid() && pos == start + |value.value|
                && Content() == old(Content())[..start] + value.value + old(Unread())[n..]
    {
      ghost var before, unread := Content(), Unread();
      SkipName();
      var name := str[start + 1..pos];
      assert name == unread[..pos - start - 1];
      var value := Get(env, name);
      if value.None? {
        return Some(UnknownParameter(name));
      }
      GetNulFree(env, name);
      assert before[pos..] == unread[pos - start - 1..];
      Substitute(start, pos, Elsewhere(value.value));
      return None;
    }

    /** One turn of the loop: the reference, or lone dollar sign, under the cursor. */
    method ExpandReference(env: Env, until: string) returns (fault: Option<Fault>)
      requires Valid() && NulFreeTable(env) && "$" <= Unread()
      modifies this, str
      ensures str == old(str) || fresh(str)
      ensures fault.Some? ==> Denote(Read(old(Unread()), until).word, env) == Err(fault.value)
      ensures fault.None? ==>
                && Valid() && old(pos) <= pos && len - pos < old(len - pos)
                && Content()[..old(pos)] == old(Content())[..old(pos)]
                && Progress(old(Unread()), Content()[old(pos)..pos], Unread(), until, env)
      decreases len - pos, 1
    {
      hide Read, ReadBraced, Denote, Bracket, Progress, Get, NameLength;
      ghost var before, unread := Content(), Unread();
      var start := pos;
      pos := pos + 1;
      assert pos < len ==> unread[1] == str[pos];
      assert pos + 1 < len ==> unread[2] == str[pos + 1];
      if NameStart(str[pos]) {
        assert before[start + 1..] == unread[1..];
        ProgressSimple(unread, until, env);
        fault := ExpandSimple(start, env);
        ghost var n := NameLength(unread[1..]);
        assert unread[1..][..n] == unread[1..1 + n] && unread[1..][n..] == unread[1 + n..];
        if fault.None? {
          Arrived(before, start, Get(env, unread[1..1 + n]).value, unread[1 + n..], unread, until, env);
        }
      } else if str[pos] == '{' && str[pos + 1] == '}' {
        pos := pos + 2;
        assert before[pos..] == unread[3..];
        Substitute(start, pos, Elsewhere("$"));
        ProgressEscape(unread, until, env);
        Arrived(before, start, "$", unread[3..], unread, until, env);
        return None;
      } else if str[pos] == '{' {
        BracketMeaning(unread, until, env);
        assert before[start + 2..] == unread[2..];
        BracketShrinks(unread[2..], env);
        fault := ExpandBraced(start, env);
        if fault.None? {
          var got := Bracket(unread[2..], env).value;
          Arrived(before, start, got.value, got.unread, unread, until, env);
        }
      } else {
        ProgressText(unread, until, env);
        assert Content()[start..pos] == unread[..1] && Unread() == unread[1..];
        return None;
      }
    }

    /** After a substitution the text behind the cursor is the value, and the reference is accounted for. */
    lemma Arrived(before: string, start: nat, value: string, rest: string, unread: string, until: string, env: Env)
      requires Valid() && start <= |before|
      requires Content() == before[..start] + value + rest && pos == start + |value|
      requires Progress(unread, value, rest, until, env)
      ensures Content()[..start] == before[..start]
      ensures Progress(unread, Content()[start..pos], Unread(), until, env) && len - pos == |rest|
    {
      hide Progress;
      assert Content()[start..pos] == value && Unread() == rest;
    }

    /** environ_expand_until */
    method ExpandUntil(env: Env, until: string) returns (fault: Option<Fault>)
      requires Valid() && NulFreeTable(env) && '$' !in until
      modifies this, str
      ensures str == old(str) || fresh(str)
      ensures var r := Read(old(Unread()), until);
              var text := Denote(r.word, env);
              if text.Err? then fault == Some(text.error)
              else
                && fault.None? && Valid() && pos == old(pos) + |text.value|
                && Content() == old(Content())[..old(pos)] + text.value + r.rest
      decreases len - pos, 2
    {
      hide Read, ReadBraced, Denote, Progress;
      ghost var first, before, whole := pos, Content()[..pos], Unread();
      ghost var done := "";
      ProgressStart(whole, until, env);
      fault := None;
      while true
        invariant Valid() && len - pos <= |whole| && fault.None?
        invariant str == old(str) || fresh(str)
        invariant Content()[..pos] == before + done
        invariant Progress(whole, done, Unread(), until, env)
        decreases len - pos
      {
        ghost var p0, u0 := pos, Unread();
        SkipText(until, env);
        ProgressStep(whole, done, u0, Content()[p0..pos], Unread(), until, env);
        Extended(Content(), p0, pos, before, done);
        done := done + Content()[p0..pos];
        if str[pos] != '$' { break; }
        p0, u0 := pos, Unread();
        fault := ExpandReference(env, until);
        if fault.Some? {
          ProgressFails(whole, done, u0, until, env);
          return;
        }
        ProgressStep(whole, done, u0, Content()[p0..pos], Unread(), until, env);
        Extended(Content(), p0, pos, before, done);
        done := done + Content()[p0..pos];
      }
      ProgressEnds(whole, done, Unread(), until, env);
      assert Content() == Content()[..pos] + Unread();
    }
  }

  lemma Extended(content: string, from: nat, to: nat, before: string, done: string)
    requires from <= to <= |content| && content[..from] == before + done
    ensures content[..to] == before + (done + content[from..to])
  {
  }

  lemma BracketShrinks(inside: string, env: Env)
    ensures Bracket(inside, env).Ok? ==> |Bracket(inside, env).value.unread| < |inside|
  {
  }

  /** environ_expand: for every string and environment, the buffer ends as the meaning of the string. */
  method EnvironExpand(s: string, env: Env) returns (r: Result<string, Fault>)
    requires NulFree(s) && NulFreeTable(env)
    ensures r == Expand(s, env)
  {
    hide Read, Denote;
    var b := new Buffer(s);
    assert b.Unread() == s;
    var fault := b.ExpandUntil(env, "");
    if fault.Some? {
      return Err(fault.value);
    }
    WholeStringRead(s, env);
    ghost var text := Denote(Read(s, "").word, env).value;
    assert b.str[..b.len] == text;
    r := Ok(b.str[..b.len]);
  }

  lemma WholeStringRead(s: string, env: Env)
    requires Denote(Read(s, "").word, env).Ok?
    ensures Read(s, "").rest == ""
  {
    StopsAtRest(s, "");
    if WordFails(Read(s, "").word) { FailingWordHasNoMeaning(Read(s, "").word, env); }
  }
}

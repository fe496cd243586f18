/** Which class is registered under a name after a configuration file appears, changes or vanishes. */
module Registry {
  import opened Wrappers
  import opened Condition
  import opened JobMachine
  import opened Supervisor
  import opened SupervisorSteps
  import opened Invariant
  import opened OfferSteps
  import opened ConfigSteps

  /**
   Every name belongs to the class that had it, if that class has instances, and else to the
   best file there is now.
   */
  ghost predicate Appointed(s: Sys, r: Sys) {
    forall n :: Registered(r, n) == if InUse(s, Registered(s, n)) then Registered(s, n) else Select(r, n)
  }

  /** All names but this one are up to date. */
  ghost predicate CurrentBut(s: Sys, name: string) { forall n :: n != name ==> CurrentFor(s, n) }

  /** Only this name's best file may be another. */
  ghost predicate Selected(s: Sys, r: Sys, name: string) { forall n :: n != name ==> Select(r, n) == Select(s, n) }

  // ---- The best file ----

  /** The first class of the list that has its name. */
  ghost predicate FirstOfName(s: Sys, ids: seq<ClassId>, c: ClassId) {
    && c < |s.classes|
    && exists k :: 0 <= k < |ids| && ids[k] == c && NoneBefore(s, ids, k, s.classes[c].config.name)
  }

  predicate NoneBefore(s: Sys, ids: seq<ClassId>, k: nat, name: string) {
    forall i :: 0 <= i < k && i < |ids| && ids[i] < |s.classes| ==> s.classes[ids[i]].config.name != name
  }

  /** The search finds the first class with the name, if there is one. */
  lemma {:induction false} NamedFirst(s: Sys, ids: seq<ClassId>, name: string)
    ensures var r := Named(s, ids, name);
            && (r.None? <==> NoneBefore(s, ids, |ids|, name))
            && (r.Some? ==> FirstOfName(s, ids, r.value) && s.classes[r.value].config.name == name)
  {
    if ids != [] {
      NamedFirst(s, ids[1..], name);
      var r := Named(s, ids, name);
      if r == Some(ids[0]) {
        assert ids[0] < |s.classes| ==> NoneBefore(s, ids, 0, s.classes[ids[0]].config.name);
      }
      if r.Some? && !(ids[0] < |s.classes| && s.classes[ids[0]].config.name == name) {
        var k :| 0 <= k < |ids[1..]| && ids[1..][k] == r.value && NoneBefore(s, ids[1..], k, name);
        assert ids[k + 1] == r.value;
        assert NoneBefore(s, ids, k + 1, name) by { LaterNone(s, ids, k, name); }
      }
      if r.None? { LaterNone(s, ids, |ids| - 1, name); }
      if NoneBefore(s, ids, |ids|, name) {
        forall i | 0 <= i < |ids| - 1 && ids[1..][i] < |s.classes| ensures s.classes[ids[1..][i]].config.name != name {
          assert ids[1..][i] == ids[i + 1];
        }
      }
    }
  }

  lemma LaterNone(s: Sys, ids: seq<ClassId>, k: nat, name: string)
    requires ids != [] && k < |ids| && NoneBefore(s, ids[1..], k, name)
    requires ids[0] < |s.classes| ==> s.classes[ids[0]].config.name != name
    ensures NoneBefore(s, ids, k + 1, name)
  {
    forall i | 0 <= i < k + 1 && ids[i] < |s.classes| ensures s.classes[ids[i]].config.name != name {
      if i > 0 { assert ids[1..][i - 1] == ids[i]; }
    }
  }

  lemma {:induction false} NamedInserted(s: Sys, r: Sys, a: seq<ClassId>, c: ClassId, b: seq<ClassId>, name: string)
    requires |s.classes| <= c < |r.classes| && r.classes[c].config.name != name
    requires forall d :: 0 <= d < |s.classes| ==> r.classes[d].config == s.classes[d].config
    requires forall d :: d in a + b ==> d < |s.classes|
    ensures Named(r, a + [c] + b, name) == Named(s, a + b, name)
    decreases |a|
  {
    if a == [] {
      assert [] + [c] + b == [c] + b && ([c] + b)[1..] == b && [] + b == b;
      NamedKept(s, r, b, name);
    } else {
      assert (a + [c] + b)[1..] == a[1..] + [c] + b && (a + b)[1..] == a[1..] + b && (a + b)[0] in a + b;
      assert forall d :: d in a[1..] + b ==> d in a + b;
      NamedInserted(s, r, a[1..], c, b, name);
    }
  }

  lemma {:induction false} NamedKept(s: Sys, r: Sys, ids: seq<ClassId>, name: string)
    requires |s.classes| <= |r.classes| && forall d :: 0 <= d < |s.classes| ==>
               r.classes[d].config == s.classes[d].config
    requires forall d :: d in ids ==> d < |s.classes|
    ensures Named(r, ids, name) == Named(s, ids, name)
  {
    if ids != [] {
      assert ids[0] in ids && forall d :: d in ids[1..] ==> d in ids;
      NamedKept(s, r, ids[1..], name);
    }
  }

  /** Taking a class off the list matters only where it was found. */
  lemma {:induction false} NamedWithout(s: Sys, ids: seq<ClassId>, c: ClassId, name: string)
    requires Named(s, ids, name) != Some(c)
    ensures Named(s, Without(ids, c), name) == Named(s, ids, name)
  {
    if ids != [] {
      var rest := Without(ids[1..], c);
      if ids[0] != c {
        assert ([ids[0]] + rest)[1..] == rest;
        if !(ids[0] < |s.classes| && s.classes[ids[0]].config.name == name) { NamedWithout(s, ids[1..], c, name); }
      } else {
        NamedWithout(s, ids[1..], c, name);
      }
    }
  }

  lemma NewClassSelects(s: Sys, at: nat, config: Config, startOn: Option<Cond>)
    requires Inv(s)
    ensures var r := NewClass(s, at, config, startOn);
            Selected(s, r, config.name) && forall n :: Registered(r, n) == Registered(s, n)
  {
    hide Base, Named;
    TablesInRange(s);
    var r := NewClass(s, at, config, startOn);
    var i := if at <= |s.files| then at else |s.files|;
    assert s.files[..i] + s.files[i..] == s.files;
    forall n ensures Registered(r, n) == Registered(s, n) { NamedKept(s, r, s.registered, n); }
    forall n | n != config.name ensures Select(r, n) == Select(s, n) {
      NamedInserted(s, r, s.files[..i], |s.classes|, s.files[i..], n);
    }
  }

  lemma TablesInRange(s: Sys)
    requires Inv(s)
    ensures forall c :: c in s.files || c in s.registered ==> c < |s.classes|
  {
  }

  lemma DroppedSelects(s: Sys, c: ClassId)
    requires Inv(s) && LiveClass(s, c)
    ensures var r := s.(files := Without(s.files, c));
            && (forall n :: Registered(r, n) == Registered(s, n))
            && (forall n :: Select(s, n) != Some(c) ==> Select(r, n) == Select(s, n))
            && Selected(s, r, s.classes[c].config.name)
  {
    hide Base, Named;
    var r, name := s.(files := Without(s.files, c)), s.classes[c].config.name;
    forall n ensures Registered(r, n) == Registered(s, n) { SameNamed(s, r, s.registered, n); }
    forall n | Select(s, n) != Some(c) ensures Select(r, n) == Select(s, n) {
      NamedWithout(s, s.files, c, n);
      SameNamed(s, r, r.files, n);
    }
    forall n | n != name ensures Select(s, n) != Some(c) { NamedFound(s, s.files, n); }
  }

  // ---- Registration ----

  /** job_class_consider: the best file gets the name, unless the class that has it has instances. */
  lemma ConsiderAppoints(s: Sys, c: ClassId, w: World)
    requires Inv(s) && c in s.files && LiveClass(s, c)
    ensures Consider(s, c, w).Ok? && Rewired(s, Consider(s, c, w).value)
    ensures var r, name := Consider(s, c, w).value, s.classes[c].config.name;
            && Registered(r, name) == (if InUse(s, Registered(s, name)) then Registered(s, name) else Select(r, name))
            && Reassigned(s, r, name) && (forall n :: Select(r, n) == Select(s, n)) && Select(r, name).Some?
  {
    hide Inv, EventBlock, ResetStart, Named, Without;
    ConsiderKeeps(s, c, w);
    var r, name := Consider(s, c, w).value, s.classes[c].config.name;
    NamedFound(s, s.files, name);
    BestLives(s, name);
    forall n ensures Select(r, n) == Select(s, n) { SameNamed(s, r, s.files, n); }
    var best, old_ := Select(s, name).value, Registered(s, name);
    if old_ == Some(best) || old_.None? {
      ConsiderFirst(s, c, w);
    } else {
      EventBlockKeeps(s, old_.value, best, w);
      var s1 := EventBlock(s, old_.value, best, w).value;
      SameRegistrations(s, s1);
      if s1.classes[old_.value].instances != [] {
        ResetStartKeeps(s1, best);
        SameRegistrations(s1, r);
      } else {
        NamedFound(s, s.registered, name);
        Registering(s1, best, r);
        Replaced(s1, r, old_.value, best);
      }
    }
  }

  lemma SameRegistrations(s: Sys, r: Sys)
    requires r.registered == s.registered && |r.classes| == |s.classes|
    requires forall c :: 0 <= c < |s.classes| ==> r.classes[c].config == s.classes[c].config
    ensures forall n :: Registered(r, n) == Registered(s, n)
  {
    forall n ensures Registered(r, n) == Registered(s, n) { SameNamed(s, r, s.registered, n); }
  }

  /** No other class has the name, or the best one has it already. */
  lemma ConsiderFirst(s: Sys, c: ClassId, w: World)
    requires Inv(s) && c in s.files && LiveClass(s, c)
    requires Registered(s, s.classes[c].config.name).None?
             || Registered(s, s.classes[c].config.name) == Select(s, s.classes[c].config.name)
    ensures Consider(s, c, w).Ok?
    ensures var r, name := Consider(s, c, w).value, s.classes[c].config.name;
            Registered(r, name) == Select(s, name) && Reassigned(s, r, name)
  {
    hide Inv, EventBlock, Named;
    var name := s.classes[c].config.name;
    ConsiderKeeps(s, c, w);
    NamedFound(s, s.files, name);
    BestLives(s, name);
    var best, r := Select(s, name).value, Consider(s, c, w).value;
    if Registered(s, name).None? {
      Registering(s, best, r);
      Added(s, r, best);
    }
  }

  lemma Added(s: Sys, r: Sys, best: ClassId)
    requires Inv(s) && Inv(r) && best < |s.classes| && r == s.(registered := s.registered + [best])
    ensures Reassigned(s, r, s.classes[best].config.name)
  {
    hide Linked, Queued, InstancesAgree, FilesAgree, SoundTrees, JobAtRest, Reassigned;
    RegisteredElsewhere(s, r, s.classes[best].config.name);
  }

  lemma Replaced(s: Sys, r: Sys, old_: ClassId, best: ClassId)
    requires Inv(s) && Inv(r) && best < |s.classes| && old_ < |s.classes|
    requires s.classes[old_].config.name == s.classes[best].config.name
    requires r == s.(registered := Without(s.registered, old_) + [best])
    ensures Reassigned(s, r, s.classes[best].config.name)
  {
    hide Linked, Queued, InstancesAgree, FilesAgree, SoundTrees, JobAtRest, Reassigned;
    WithoutFacts(s.registered, old_);
    RegisteredElsewhere(s, r, s.classes[best].config.name);
  }

  // ---- Files that appear, change and vanish ----

  lemma AppointedCurrent(s: Sys, r: Sys)
    requires Appointed(s, r) && |s.classes| <= |r.classes|
    requires forall c :: 0 <= c < |s.classes| ==> r.classes[c].instances == s.classes[c].instances
    ensures Current(r)
  {
    forall n ensures CurrentFor(r, n) {}
  }

  /** The name's best file may be another, and the name has been seen to. */
  lemma Appointing(s: Sys, r: Sys, name: string)
    requires CurrentBut(s, name) && Selected(s, r, name) && Reassigned(s, r, name)
    requires Registered(r, name) == if InUse(s, Registered(s, name)) then Registered(s, name) else Select(r, name)
    ensures Appointed(s, r)
  {
    forall n ensures Registered(r, n) == if InUse(s, Registered(s, n)) then Registered(s, n) else Select(r, n) {
      if n != name { assert CurrentFor(s, n); }
    }
  }

  /** A new file: the class it describes gets its name if it is the best now and the name is not in use. */
  lemma LoadFileAppoints(s: Sys, at: nat, config: Config, startOn: Option<Cond>, w: World)
    requires Inv(s) && CurrentBut(s, config.name)
    ensures LoadFile(s, at, config, startOn, w).Ok?
    ensures var r := LoadFile(s, at, config, startOn, w).value;
            && Rewired(s, r) && Appointed(s, r) && Current(r) && Selected(s, r, config.name)
            && Reassigned(s, r, config.name)
  {
    hide Inv, Rewired, NewClass, Consider, Current, CurrentBut, Select, Registered, InUse;
    LoadFileKeeps(s, at, config, startOn, w);
    NewClassKeeps(s, at, config, startOn);
    NewClassSelects(s, at, config, startOn);
    var s1 := NewClass(s, at, config, startOn);
    RewiredInv(s, s1);
    NewClassNamed(s, at, config, startOn);
    ConsiderAppoints(s1, |s.classes|, w);
    SameUse(s, s1);
    var r := LoadFile(s, at, config, startOn, w).value;
    Appointing(s, r, config.name);
    RewiredInv(s, r);
    SameInstances(s, at, config, startOn, w);
    AppointedCurrent(s, r);
  }

  lemma RewiredInv(s: Sys, r: Sys)
    requires Rewired(s, r)
    ensures Inv(r)
  {
  }

  lemma NewClassNamed(s: Sys, at: nat, config: Config, startOn: Option<Cond>)
    ensures var r := NewClass(s, at, config, startOn);
            && |r.classes| == |s.classes| + 1 && r.classes[|s.classes|].config == config
            && r.classes[|s.classes|].instances == []
            && (forall c :: 0 <= c < |s.classes| ==> r.classes[c] == s.classes[c])
  {
  }

  lemma SameUse(s: Sys, r: Sys)
    requires Inv(s) && |s.classes| <= |r.classes| && forall c :: 0 <= c < |s.classes| ==> r.classes[c] == s.classes[c]
    ensures forall n :: InUse(r, Registered(s, n)) == InUse(s, Registered(s, n))
  {
    hide Base, Named;
    TablesInRange(s);
    forall n ensures InUse(r, Registered(s, n)) == InUse(s, Registered(s, n)) { NamedFound(s, s.registered, n); }
  }

  lemma SameInstances(s: Sys, at: nat, config: Config, startOn: Option<Cond>, w: World)
    requires Inv(s)
    ensures LoadFile(s, at, config, startOn, w).Ok?
    ensures var r := LoadFile(s, at, config, startOn, w).value;
            && |s.classes| <= |r.classes| && forall c :: 0 <= c < |s.classes| ==>
                 r.classes[c].instances == s.classes[c].instances
  {
    hide Inv, Rewired, Consider;
    LoadFileKeeps(s, at, config, startOn, w);
    var r := LoadFile(s, at, config, startOn, w).value;
    forall c | 0 <= c < |s.classes| ensures r.classes[c].instances == s.classes[c].instances {
      assert r.classes[c] == s.classes[c].(startOn := r.classes[c].startOn);
    }
  }

  /** conf_file_destroy of a file that is out of its table: if its class had the name, the best file takes it over. */
  lemma DestroyAppoints(s: Sys, c: ClassId)
    requires Inv(s) && LiveClass(s, c) && c !in s.files
    requires CurrentBut(s, s.classes[c].config.name) && (c !in s.registered ==> CurrentFor(s, s.classes[c].config.name))
    ensures Destroy(s, c).Ok?
    ensures var r := Destroy(s, c).value;
            && Rewired(s, r) && Appointed(s, r) && Current(r) && forall n :: Select(r, n) == Select(s, n)
  {
    hide Inv, Rewired, Reconsider, FreeClass, Destroy, Select, Registered, Named;
    DestroyKeeps(s, c);
    var name := s.classes[c].config.name;
    var s1 := SetClass(s, c, s.classes[c].(deleted := true));
    DeletedKeeps(s, c);
    RewiredInv(s, s1);
    ReconsiderRewired(s1, c);
    var r1 := Reconsider(s1, c).value;
    InvTables(s1);
    ReconsiderChooses(s1, c);
    var r := Destroy(s, c).value;
    DestroyShape(s, c);
    SelectsAlike(s, s1, r1.sys, r);
    RegistersAlike(s, s1);
    RegistersAlike(r1.sys, r);
    if c !in s.registered { NotRegistered(s, c); }
    ReconsiderAppoints(s1, c);
    Appointing(s, r, name);
    AppointedCurrent(s, r);
  }

  /**
   job_class_reconsider: a class that has the name keeps it if it has instances, and leaves
   it to the best file if not.
   */
  lemma ReconsiderAppoints(s: Sys, c: ClassId)
    requires RegisteredOnce(s) && FilesAgree(s) && LiveClass(s, c) && Reconsider(s, c).Ok?
    ensures var r, name := Reconsider(s, c).value.sys, s.classes[c].config.name;
            && (c !in s.registered ==> r == s)
            && (c in s.registered ==>
                  Registered(s, name) == Some(c) && Registered(r, name) == if InUse(s, Some(c)) then Some(c)
                    else Select(s, name))
  {
    hide Named, Without;
    var name, best := s.classes[c].config.name, Select(s, s.classes[c].config.name);
    NamedFound(s, s.registered, name);
    NamedFound(s, s.files, name);
    if c in s.registered {
      RegisteredName(s, c);
      if s.classes[c].instances == [] && best != Some(c) {
        var r := Reconsider(s, c).value.sys;
        RemoveKeeps(s, c);
        WithoutFacts(s.registered, c);
        AddKeeps(s.(registered := Without(s.registered, c)), best);
        if best.Some? { RegisteredName(r, best.value); } else { NamedFound(r, r.registered, name); }
      }
    }
  }

  lemma InvTables(s: Sys)
    requires Inv(s)
    ensures RegisteredOnce(s) && FilesAgree(s)
  {
  }

  lemma NotRegistered(s: Sys, c: ClassId)
    requires Inv(s) && LiveClass(s, c) && c !in s.registered
    ensures Registered(s, s.classes[c].config.name) != Some(c)
  {
    hide Base;
    NamedFound(s, s.registered, s.classes[c].config.name);
  }

  /** What destroying a file does to the classes: its own may be freed. */
  lemma DestroyShape(s: Sys, c: ClassId)
    requires Inv(s) && LiveClass(s, c) && c !in s.files
    ensures Destroy(s, c).Ok?
    ensures var s1 := SetClass(s, c, s.classes[c].(deleted := true));
            Reconsider(s1, c).Ok?
            && var r, r1 := Destroy(s, c).value, Reconsider(s1, c).value.sys;
               && r.registered == r1.registered && r.files == s.files && r1.files == s.files
               && |r.classes| == |s.classes| == |r1.classes|
               && forall d :: 0 <= d < |s.classes| ==>
                    && r.classes[d].config == s.classes[d].config == r1.classes[d].config
                    && r.classes[d].instances == s.classes[d].instances == r1.classes[d].instances
  {
    hide Inv, Rewired, Reconsider, FreeClass;
    var s1 := SetClass(s, c, s.classes[c].(deleted := true));
    DeletedKeeps(s, c);
    RewiredInv(s, s1);
    ReconsiderRewired(s1, c);
    var r1 := Reconsider(s1, c).value;
    RewiredInv(s1, r1.sys);
    if r1.gone { FreeClassRewired(r1.sys, c); }
  }

  lemma RegistersAlike(s: Sys, r: Sys)
    requires r.registered == s.registered && |r.classes| == |s.classes|
    requires forall d :: 0 <= d < |s.classes| ==> r.classes[d].config == s.classes[d].config
    ensures forall n :: Registered(r, n) == Registered(s, n)
  {
    SameRegistrations(s, r);
  }

  lemma SelectsAlike(s: Sys, a: Sys, b: Sys, c: Sys)
    requires a.files == s.files && b.files == s.files && c.files == s.files
    requires |a.classes| == |b.classes| == |c.classes| == |s.classes|
    requires forall d :: 0 <= d < |s.classes| ==>
               s.classes[d].config == a.classes[d].config == b.classes[d].config == c.classes[d].config
    ensures forall n :: Select(a, n) == Select(s, n) && Select(b, n) == Select(s, n) && Select(c, n) == Select(s, n)
  {
    forall n ensures Select(a, n) == Select(s, n) && Select(b, n) == Select(s, n) && Select(c, n) == Select(s, n) {
      SameNamed(s, a, s.files, n);
      SameNamed(s, b, s.files, n);
      SameNamed(s, c, s.files, n);
    }
  }

  lemma DroppedCurrent(s: Sys, c: ClassId)
    requires Inv(s) && Current(s) && c in s.files && LiveClass(s, c)
    ensures var s1, name := s.(files := Without(s.files, c)), s.classes[c].config.name;
            CurrentBut(s1, name) && (c !in s.registered ==> CurrentFor(s1, name))
  {
    hide Inv, Named, Without;
    DroppedSelects(s, c);
    var s1, name := s.(files := Without(s.files, c)), s.classes[c].config.name;
    forall n | n != name ensures CurrentFor(s1, n) { assert CurrentFor(s, n); }
    if c !in s.registered {
      assert CurrentFor(s, name);
      NotRegistered(s, c);
      HasBest(s, c);
    }
  }

  lemma HasBest(s: Sys, c: ClassId)
    requires c in s.files && LiveClass(s, c)
    ensures Select(s, s.classes[c].config.name).Some?
  {
    NamedFound(s, s.files, s.classes[c].config.name);
  }

  /**
   A file that cannot be read any more: its class keeps the name as long as it has
   instances, and then the best file has it.
   */
  lemma RemoveFileAppoints(s: Sys, c: ClassId)
    requires Inv(s) && Current(s) && c in s.files
    ensures RemoveFile(s, c).Ok?
    ensures var r := RemoveFile(s, c).value; Rewired(s, r) && Appointed(s, r) && Current(r)
  {
    hide Inv, Destroy, Without, Current, CurrentBut, CurrentFor, Rewired, Named;
    FileLives(s, c);
    FileDropped(s, c);
    DroppedCurrent(s, c);
    DroppedSelects(s, c);
    var s1 := s.(files := Without(s.files, c));
    RewiredInv(s, s1);
    DestroyAppoints(s1, c);
    RewiredChain(s, s1, Destroy(s1, c).value);
  }

  /** A file that has changed: the class keeps the name as long as it has instances, and else the best file has it. */
  lemma ReloadFileAppoints(s: Sys, c: ClassId, config: Config, startOn: Option<Cond>, w: World)
    requires Inv(s) && Current(s) && c in s.files
    ensures ReloadFile(s, c, config, startOn, w).Ok?
    ensures var r := ReloadFile(s, c, config, startOn, w).value; Rewired(s, r) && Appointed(s, r) && Current(r)
  {
    hide Inv, LoadFile, Destroy, Without, Current, CurrentFor, Rewired, Named, Select, Registered;
    FileLives(s, c);
    FileDropped(s, c);
    DroppedCurrent(s, c);
    DroppedSelects(s, c);
    var s1 := s.(files := Without(s.files, c));
    RewiredInv(s, s1);
    var named := config.(name := s.classes[c].config.name);
    var at := IndexIn(s.files, c);
    LoadFileKeeps(s1, at, named, startOn, w);
    LoadFileAppoints(s1, at, named, startOn, w);
    SameInstances(s1, at, named, startOn, w);
    var s2 := LoadFile(s1, at, named, startOn, w).value;
    RewiredInv(s1, s2);
    RewiredChain(s, s1, s2);
    assert s2.classes[c] == s1.classes[c].(startOn := s2.classes[c].startOn);
    CurrentAll(s2, named.name);
    DestroyAppoints(s2, c);
    RewiredChain(s, s2, Destroy(s2, c).value);
    AppointedTwice(s, s1, s2, Destroy(s2, c).value);
  }

  lemma CurrentAll(s: Sys, name: string)
    requires Current(s)
    ensures CurrentBut(s, name) && CurrentFor(s, name)
  {
  }

  lemma AppointedTwice(s: Sys, s1: Sys, s2: Sys, r: Sys)
    requires s1.classes == s.classes && (forall n :: Registered(s1, n) == Registered(s, n))
    requires Appointed(s1, s2) && Appointed(s2, r) && (forall n :: Select(r, n) == Select(s2, n))
    requires |s.classes| <= |s2.classes| && forall c :: 0 <= c < |s.classes| ==>
               s2.classes[c].instances == s.classes[c].instances
    ensures Appointed(s, r)
  {
    hide Select, Registered;
  }
}

/** Configuration files appear, change and vanish: the registry stays safe and references stay balanced. */
module ConfigSteps {
  import opened Wrappers
  import opened Condition
  import opened JobMachine
  import opened Supervisor
  import opened SupervisorSteps
  import opened Ledger
  import opened Lists
  import opened Invariant
  import opened Transitions
  import opened Arrival
  import opened CommandSteps
  import opened OfferSteps

  /** The step went well; jobs and configurations are as before, and so are events but for their blocker counts. */
  ghost predicate Rewired(s: Sys, r: Sys) {
    && Inv(r) && r.jobs == s.jobs && EventsQuiet(s, r) && Marks(s, r, [])
    && |s.classes| <= |r.classes| && forall c :: 0 <= c < |s.classes| ==> r.classes[c].config == s.classes[c].config
  }

  lemma RewiredChain(a: Sys, b: Sys, c: Sys)
    requires Rewired(a, b) && Rewired(b, c)
    ensures Rewired(a, c)
  {
  }

  // ---- Files ----

  lemma FilesChange(s: Sys, r: Sys)
    requires Inv(s) && r == s.(files := r.files) && FilesAgree(r)
    ensures Rewired(s, r)
  {
    hide Balanced, Linked, Queued, FilesAgree, SoundTrees;
    assert Balanced(r) by { SameBalance(s, r); }
    LinksKept(s, r);
    QueueKept(s, r);
    RegistryAlone(s, r);
    assert SoundTrees(r) by { SameTrees(s, r); }
    forall k: JobId ensures JobAtRest(r, k) { assert JobAtRest(s, k); }
  }

  lemma SameBalance(s: Sys, r: Sys)
    requires Balanced(s) && r.jobs == s.jobs && r.classes == s.classes && r.events == s.events
    ensures Balanced(r)
  {
    forall e: EventId ensures Blockers(r, e) == Holds(r, e) { assert Blockers(s, e) == Holds(s, e); }
  }

  lemma SameTrees(s: Sys, r: Sys)
    requires SoundTrees(s) && r.jobs == s.jobs && r.classes == s.classes
    ensures SoundTrees(r)
  {
  }

  lemma RegistryAlone(s: Sys, r: Sys)
    requires RegisteredOnce(s) && InstancesAgree(s) && r == s.(files := r.files)
    ensures RegisteredOnce(r) && InstancesAgree(r)
  {
    forall c | c in r.registered ensures LiveClass(r, c) { assert LiveClass(s, c); }
    forall k: JobId | LiveJob(r, k) ensures LiveClass(r, r.jobs[k].cls) && k in r.classes[r.jobs[k].cls].instances {
      assert LiveJob(s, k);
    }
    forall c, k: JobId | 0 <= c < |r.classes| && k in r.classes[c].instances
      ensures LiveJob(r, k) && r.jobs[k].cls == c
    {
      assert k in s.classes[c].instances;
      assert LiveJob(s, k);
    }
  }

  lemma FileDropped(s: Sys, c: ClassId)
    requires Inv(s)
    ensures Rewired(s, s.(files := Without(s.files, c))) && c !in Without(s.files, c)
  {
    hide Balanced, Linked, Queued, RegisteredOnce, InstancesAgree, SoundTrees, JobAtRest;
    WithoutFacts(s.files, c);
    var r := s.(files := Without(s.files, c));
    forall d | d in r.files ensures LiveClass(r, d) && !r.classes[d].deleted { assert LiveClass(s, d); }
    FilesChange(s, r);
  }

  // ---- A class whose file is gone ----

  lemma DeletedKeeps(s: Sys, c: ClassId)
    requires Inv(s) && LiveClass(s, c) && c !in s.files
    ensures Rewired(s, SetClass(s, c, s.classes[c].(deleted := true)))
  {
    hide Balanced, Linked, Queued;
    var r := SetClass(s, c, s.classes[c].(deleted := true));
    DeletedBalance(s, c, r);
    LinksKept(s, r);
    QueueKept(s, r);
    DeletedTables(s, c, r);
    forall k: JobId ensures JobAtRest(r, k) { assert JobAtRest(s, k); }
  }

  lemma DeletedBalance(s: Sys, c: ClassId, r: Sys)
    requires Balanced(s) && c < |s.classes| && r == SetClass(s, c, s.classes[c].(deleted := true))
    ensures Balanced(r)
  {
    forall e: EventId ensures Blockers(r, e) == Holds(r, e) {
      SameClassHolds(s.classes, r.classes, e);
      assert Blockers(s, e) == Holds(s, e);
    }
  }

  lemma DeletedTables(s: Sys, c: ClassId, r: Sys)
    requires RegisteredOnce(s) && InstancesAgree(s) && FilesAgree(s) && c < |s.classes| && c !in s.files
    requires r == SetClass(s, c, s.classes[c].(deleted := true))
    ensures RegisteredOnce(r) && InstancesAgree(r) && FilesAgree(r)
  {
    forall d | d in r.registered ensures LiveClass(r, d) { assert LiveClass(s, d); }
    forall k: JobId | LiveJob(r, k) ensures LiveClass(r, r.jobs[k].cls) && k in r.classes[r.jobs[k].cls].instances {
      assert LiveJob(s, k);
    }
    forall d, k: JobId | 0 <= d < |r.classes| && k in r.classes[d].instances
      ensures LiveJob(r, k) && r.jobs[k].cls == d
    {
      assert k in s.classes[d].instances;
      assert LiveJob(s, k);
    }
    forall d | 0 <= d < |r.classes|
      ensures Distinct(r.classes[d].instances)
    {
      assert Distinct(s.classes[d].instances);
    }
    forall d | d in r.files ensures LiveClass(r, d) && !r.classes[d].deleted { assert LiveClass(s, d); }
  }

  lemma AllRest(s: Sys, r: Sys)
    requires Inv(s) && Base(r)
    requires forall j: JobId :: OthersAtRest(s, j) ==> OthersAtRest(r, j)
    ensures Inv(r)
  {
    hide Base, JobAtRest;
    forall k: JobId ensures JobAtRest(r, k) {
      assert OthersAtRest(s, k + 1);
      assert OthersAtRest(r, k + 1);
    }
  }

  /** job_class_reconsider */
  lemma ReconsiderRewired(s: Sys, c: ClassId)
    requires Inv(s) && LiveClass(s, c)
    ensures Reconsider(s, c).Ok?
    ensures var r := Reconsider(s, c).value;
            && Rewired(s, r.sys) && r.sys == s.(registered := r.sys.registered)
            && (r.gone ==> c !in r.sys.registered) && (!r.gone ==> r.sys == s)
  {
    hide Base, Reconsider, OthersAtRest;
    ReconsiderKeeps(s, c);
    AllRest(s, Reconsider(s, c).value.sys);
  }

  lemma FreeClassRewired(s: Sys, c: ClassId)
    requires Inv(s) && LiveClass(s, c) && c !in s.registered && c !in s.files
    ensures FreeClass(s, c).Ok?
    ensures var r := FreeClass(s, c).value;
            && Rewired(s, r)
            && r == s.(events := r.events, classes := s.classes[c := s.classes[c].(live := false, startOn := None)])
  {
    hide Base, FreeClass, OthersAtRest;
    FreeClassKeeps(s, c);
    AllRest(s, FreeClass(s, c).value);
    FreeClassMarks(s, c);
  }

  lemma FreeClassMarks(s: Sys, c: ClassId)
    requires FreeClass(s, c).Ok?
    ensures Marks(s, FreeClass(s, c).value, [])
  {
    hide UnblockAll;
    UnblockKeepsEvents(s, HeldBy(s.classes[c].startOn));
  }

  /** conf_file_destroy: a class is freed only when it is not registered and has no instances. */
  lemma DestroyKeeps(s: Sys, c: ClassId)
    requires Inv(s) && LiveClass(s, c) && c !in s.files
    ensures Destroy(s, c).Ok? && Rewired(s, Destroy(s, c).value)
    ensures var r := Destroy(s, c).value;
            && (LiveClass(r, c) <==> c in r.registered) && |r.classes| == |s.classes|
            && (LiveClass(r, c) ==> r.classes[c] == s.classes[c].(deleted := true))
            && forall d :: 0 <= d < |s.classes| && d != c ==> r.classes[d] == s.classes[d]
  {
    hide Inv, Reconsider, FreeClass, Marks;
    var s1 := SetClass(s, c, s.classes[c].(deleted := true));
    DeletedKeeps(s, c);
    ReconsiderRewired(s1, c);
    var r1 := Reconsider(s1, c).value;
    RewiredChain(s, s1, r1.sys);
    if r1.gone {
      FreeClassRewired(r1.sys, c);
      RewiredChain(s, r1.sys, FreeClass(r1.sys, c).value);
    } else {
      StillRegistered(s1, c);
    }
  }

  lemma StillRegistered(s: Sys, c: ClassId)
    requires LiveClass(s, c) && Reconsider(s, c).Ok? && !Reconsider(s, c).value.gone
    ensures c in s.registered
  {
    NamedFound(s, s.registered, s.classes[c].config.name);
  }

  // ---- New classes ----

  lemma DistinctInsert(xs: seq<ClassId>, i: nat, x: ClassId)
    requires Distinct(xs) && x !in xs && i <= |xs|
    ensures Distinct(xs[..i] + [x] + xs[i..])
  {
    var ys := xs[..i] + [x] + xs[i..];
    assert forall k :: 0 <= k < |ys| ==> ys[k] == (if k < i then xs[k] else if k == i then x else xs[k - 1]);
  }

  /** The condition as it is when no event has been offered to it. */
  function Unmet(t: Option<Cond>): Option<Cond> { if t.Some? then Some(Fresh(t.value)) else None }

  lemma NewClassKeeps(s: Sys, at: nat, config: Config, startOn: Option<Cond>)
    requires Inv(s)
    ensures var r := NewClass(s, at, config, startOn);
            && Rewired(s, r) && |s.classes| in r.files
            && (forall c :: c in r.files <==> c in s.files || c == |s.classes|)
            && |r.classes| == |s.classes| + 1 && LiveClass(r, |s.classes|) && r.classes[..|s.classes|] == s.classes
            && r.classes[|s.classes|] == JobClass(true, config, Unmet(startOn), [], false)
  {
    hide Balanced, Linked, Queued, RegisteredOnce, InstancesAgree, FilesAgree;
    var r := NewClass(s, at, config, startOn);
    var c := |s.classes|;
    var i := if at <= |s.files| then at else |s.files|;
    assert s.files == s.files[..i] + s.files[i..];
    assert r.files == s.files[..i] + [c] + s.files[i..];
    if startOn.Some? { FreshHoldsNothing(startOn.value); }
    NewClassBalance(s, r);
    LinksKept(s, r);
    QueueKept(s, r);
    NewClassTables(s, r, i);
    forall k: JobId ensures JobAtRest(r, k) { assert JobAtRest(s, k); }
  }

  lemma NewClassBalance(s: Sys, r: Sys)
    requires Balanced(s) && r.jobs == s.jobs && r.events == s.events && |r.classes| == |s.classes| + 1
    requires r.classes == s.classes + [r.classes[|s.classes|]] && HeldBy(r.classes[|s.classes|].startOn) == []
    ensures Balanced(r)
  {
    forall e: EventId ensures Blockers(r, e) == Holds(r, e) {
      ClassHoldsAppend(s.classes, r.classes[|s.classes|], e);
      assert Blockers(s, e) == Holds(s, e);
    }
  }

  lemma NewClassTables(s: Sys, r: Sys, i: nat)
    requires RegisteredOnce(s) && InstancesAgree(s) && FilesAgree(s) && i <= |s.files|
    requires |r.classes| == |s.classes| + 1
    requires r ==
             s.(classes := s.classes + [r.classes[|s.classes|]], files := s.files[..i] + [|s.classes|] + s.files[i..])
    requires var cls := r.classes[|s.classes|]; cls.live && cls.instances == [] && !cls.deleted
    ensures RegisteredOnce(r) && InstancesAgree(r) && FilesAgree(r)
  {
    forall d | d in r.registered ensures LiveClass(r, d) { assert LiveClass(s, d); }
    assert FilesAgree(r) by {
      assert s.files == s.files[..i] + s.files[i..];
      assert forall d :: d in s.files ==> LiveClass(s, d);
      DistinctInsert(s.files, i, |s.classes|);
      forall d | d in r.files ensures LiveClass(r, d) && !r.classes[d].deleted {
        if d != |s.classes| { assert d in s.files; }
      }
    }
    NewClassInstances(s, r);
  }

  lemma NewClassInstances(s: Sys, r: Sys)
    requires InstancesAgree(s) && |r.classes| == |s.classes| + 1 && r.jobs == s.jobs
    requires r.classes == s.classes + [r.classes[|s.classes|]] && r.classes[|s.classes|].instances == []
    ensures InstancesAgree(r)
  {
    forall k: JobId | LiveJob(r, k) ensures LiveClass(r, r.jobs[k].cls) && k in r.classes[r.jobs[k].cls].instances {
      assert LiveJob(s, k);
      assert LiveClass(s, s.jobs[k].cls);
    }
    forall d, k: JobId | 0 <= d < |r.classes| && k in r.classes[d].instances
      ensures LiveJob(r, k) && r.jobs[k].cls == d
    {
      assert k in s.classes[d].instances;
      assert LiveJob(s, k);
    }
    forall d | 0 <= d < |r.classes| ensures Distinct(r.classes[d].instances) {
      if d < |s.classes| { assert Distinct(s.classes[d].instances); }
    }
  }

  // ---- The new condition takes over what the old one holds ----

  lemma AbsorbRewired(s: Sys, c: ClassId, e: EventId, hit: Hit)
    requires Inv(s) && LiveClass(s, c) && s.classes[c].startOn.Some? && LiveEvent(s, e)
    ensures var t := s.classes[c].startOn.value;
            var r := Block(SetClass(s, c, s.classes[c].(startOn := Some(Absorb(t, e, hit)))), e, Taken(t, hit));
            && r.Ok? && Inv(r.value) && ClassHoldsOnly(s, r.value, c)
            && r.value.classes[c].startOn == Some(Absorb(t, e, hit))
  {
    hide Inv, Follows, Holds, NoneWaiting, SoundTrees, Balanced, Absorb, Taken, Sound, Held;
    InvParts(s);
    BalancedFreed(s);
    var t := s.classes[c].startOn.value;
    SoundStart(s, c);
    AbsorbKeeps(t, e, hit);
    var cls := s.classes[c].(startOn := Some(Absorb(t, e, hit)));
    var r := Block(SetClass(s, c, cls), e, Taken(t, hit)).value;
    ClassRebalanced(s, c, cls, r);
    ClassHoldsKept(s, r, c);
  }

  lemma {:induction false} SameAnswers(t: Cond, e: EventId, a: Hit, b: Hit)
    requires forall name, args :: a(name, args) == b(name, args)
    ensures Absorb(t, e, a) == Absorb(t, e, b) && Taken(t, a) == Taken(t, b) && Handle(t, e, a) == Handle(t, e, b)
  {
    if t.Node? {
      SameAnswers(t.left, e, a, b);
      SameAnswers(t.right, e, a, b);
    }
  }

  lemma ClassHoldsChain(a: Sys, b: Sys, c: Sys, id: ClassId)
    requires ClassHoldsOnly(a, b, id) && ClassHoldsOnly(b, c, id)
    ensures ClassHoldsOnly(a, c, id)
  {
  }

  /** job_class_event_block leaves the new condition as it would be had its leaves been offered the old one's events. */
  lemma {:induction false} TransferBlocksKeeps(s: Sys, c: ClassId, es: seq<EventId>, w: World)
    requires Inv(s) && LiveClass(s, c) && s.classes[c].startOn.Some? && forall e :: e in es ==> LiveEvent(s, e)
    ensures TransferBlocks(s, c, es, w).Ok?
    ensures var r := TransferBlocks(s, c, es, w).value;
            && Inv(r) && ClassHoldsOnly(s, r, c)
            && r.classes[c].startOn == Some(Transfer(s.classes[c].startOn.value, es, StartMatches(s, w)))
    decreases |es|
  {
    hide Inv, Block, Absorb, Taken;
    if es != [] {
      var init, e := es[..|es| - 1], es[|es| - 1];
      assert e in es && forall x :: x in init ==> x in es;
      TransferBlocksKeeps(s, c, init, w);
      var s1 := TransferBlocks(s, c, init, w).value;
      var t := s1.classes[c].startOn.value;
      AbsorbRewired(s1, c, e, Of(StartMatches(s1, w), e));
      SameAnswers(t, e, Of(StartMatches(s1, w), e), Of(StartMatches(s, w), e));
      ClassHoldsChain(s, s1, TransferBlocks(s, c, es, w).value, c);
    }
  }

  lemma StartHeldLive(s: Sys, c: ClassId)
    requires Inv(s) && c < |s.classes| && s.classes[c].startOn.Some?
    ensures forall e :: e in Held(s.classes[c].startOn.value) ==> LiveEvent(s, e)
  {
    hide Base;
    InvParts(s);
    forall e | e in Held(s.classes[c].startOn.value) ensures LiveEvent(s, e) {
      assert multiset(Held(s.classes[c].startOn.value))[e] > 0;
      ClassHoldsPart(s.classes, c, e);
      HeldIsLive(s, e);
    }
  }

  lemma EventBlockKeeps(s: Sys, old_: ClassId, new_: ClassId, w: World)
    requires Inv(s) && LiveClass(s, old_) && LiveClass(s, new_)
    ensures EventBlock(s, old_, new_, w).Ok?
    ensures Inv(EventBlock(s, old_, new_, w).value) && ClassHoldsOnly(s, EventBlock(s, old_, new_, w).value, new_)
  {
    hide Inv, TransferBlocks;
    if s.classes[old_].startOn.Some? && s.classes[new_].startOn.Some? && s.classes[old_].instances == [] {
      StartHeldLive(s, old_);
      TransferBlocksKeeps(s, new_, Held(s.classes[old_].startOn.value), w);
    }
  }

  lemma ClassHoldsRewired(s: Sys, r: Sys, c: ClassId)
    requires Inv(r) && ClassHoldsOnly(s, r, c)
    ensures Rewired(s, r)
  {
  }

  // ---- Registration ----

  /** A class takes the place of the one registered under its name, if there is one. */
  lemma Registering(s: Sys, best: ClassId, r: Sys)
    requires Inv(s) && best in s.files && best < |s.classes|
    requires var name := s.classes[best].config.name;
             var registered := Registered(s, name);
             && registered != Some(best)
             && (registered.Some? ==> registered.value < |s.classes| && s.classes[registered.value].instances == [])
             && r == AddClass(if registered.Some? then s.(registered := Without(s.registered, registered.value))
             else s, Some(best))
    ensures Rewired(s, r) && Registered(r, s.classes[best].config.name) == Some(best)
  {
    hide Balanced, Linked, Queued, SoundTrees, InstancesAgree;
    var name := s.classes[best].config.name;
    NamedFound(s, s.registered, name);
    assert LiveClass(s, best);
    var old_ := Registered(s, name);
    var s1 := if old_.Some? then s.(registered := Without(s.registered, old_.value)) else s;
    if old_.Some? {
      RemoveKeeps(s, old_.value);
    }
    AddKeeps(s1, Some(best));
    RegistryFrame(s, r);
    forall k: JobId ensures JobAtRest(r, k) { assert JobAtRest(s, k); }
    RegisteredName(r, best);
  }

  /** job_class_consider */
  lemma ConsiderKeeps(s: Sys, c: ClassId, w: World)
    requires Inv(s) && c in s.files && LiveClass(s, c)
    ensures Consider(s, c, w).Ok? && Rewired(s, Consider(s, c, w).value)
    ensures var r := Consider(s, c, w).value;
            && r.files == s.files && |r.classes| == |s.classes|
            && forall d :: 0 <= d < |s.classes| ==> r.classes[d] == s.classes[d].(startOn := r.classes[d].startOn)
  {
    hide Inv, EventBlock, ResetStart;
    var name := s.classes[c].config.name;
    NamedFound(s, s.files, name);
    NamedFound(s, s.registered, name);
    BestLives(s, name);
    var best := Select(s, name).value;
    var registered := Registered(s, name);
    RewiredSelf(s);
    if registered.None? {
      Registering(s, best, AddClass(s, Some(best)));
    } else if registered != Some(best) {
      EventBlockKeeps(s, registered.value, best, w);
      var s1 := EventBlock(s, registered.value, best, w).value;
      ClassHoldsRewired(s, s1, best);
      SameNamed(s, s1, s1.registered, name);
      if s1.classes[registered.value].instances != [] {
        ResetStartKeeps(s1, best);
        ClassHoldsRewired(s1, ResetStart(s1, best).value, best);
        RewiredChain(s, s1, ResetStart(s1, best).value);
      } else {
        var r := AddClass(s1.(registered := Without(s1.registered, registered.value)), Some(best));
        Registering(s1, best, r);
        RewiredChain(s, s1, r);
      }
    }
  }

  /** A class that has instances keeps its name; the condition of the best file gives back whatever it holds. */
  lemma ConsiderWhileInUse(s: Sys, c: ClassId, w: World)
    requires Inv(s) && c in s.files && LiveClass(s, c)
    requires var name := s.classes[c].config.name;
             InUse(s, Registered(s, name)) && Registered(s, name) != Select(s, name)
    ensures Consider(s, c, w).Ok? && Select(s, s.classes[c].config.name).Some?
    ensures var r, best := Consider(s, c, w).value, Select(s, s.classes[c].config.name).value;
            && r.registered == s.registered && best < |s.classes| == |r.classes|
            && r.classes == s.classes[best := s.classes[best].(startOn := Unmet(s.classes[best].startOn))]
  {
    hide Inv, ResetStart, Named;
    var name := s.classes[c].config.name;
    NamedFound(s, s.files, name);
    BestLives(s, name);
    ResetStartKeeps(s, Select(s, name).value);
  }

  lemma RewiredSelf(s: Sys)
    requires Inv(s)
    ensures Rewired(s, s)
  {
  }

  lemma BestLives(s: Sys, name: string)
    requires Inv(s)
    ensures Select(s, name).Some? ==> LiveClass(s, Select(s, name).value)
    ensures Registered(s, name).Some? ==> LiveClass(s, Registered(s, name).value)
  {
    NamedFound(s, s.files, name);
    NamedFound(s, s.registered, name);
  }

  /** conf_reload_path for a new path */
  lemma LoadFileKeeps(s: Sys, at: nat, config: Config, startOn: Option<Cond>, w: World)
    requires Inv(s)
    ensures LoadFile(s, at, config, startOn, w).Ok? && Rewired(s, LoadFile(s, at, config, startOn, w).value)
    ensures var r := LoadFile(s, at, config, startOn, w).value;
            && |r.classes| == |s.classes| + 1 && (forall c :: c in r.files <==> c in s.files || c == |s.classes|)
            && r.classes[|s.classes|] == JobClass(true, config, r.classes[|s.classes|].startOn, [], false)
            && forall d :: 0 <= d < |s.classes| ==> r.classes[d] == s.classes[d].(startOn := r.classes[d].startOn)
  {
    hide Inv, Consider, Marks;
    NewClassKeeps(s, at, config, startOn);
    var s1 := NewClass(s, at, config, startOn);
    ConsiderKeeps(s1, |s.classes|, w);
    RewiredChain(s, s1, Consider(s1, |s.classes|, w).value);
  }

  lemma FileLives(s: Sys, c: ClassId)
    requires Inv(s) && c in s.files
    ensures LiveClass(s, c)
  {
  }

  /** conf_reload_path for a known path */
  lemma ReloadFileKeeps(s: Sys, c: ClassId, config: Config, startOn: Option<Cond>, w: World)
    requires Inv(s) && c in s.files
    ensures ReloadFile(s, c, config, startOn, w).Ok? && Rewired(s, ReloadFile(s, c, config, startOn, w).value)
    ensures var r := ReloadFile(s, c, config, startOn, w).value;
            && c < |s.classes| == |r.classes| - 1 && Abandoned(s, r, c) && LiveClass(r, |s.classes|)
            && r.classes[|s.classes|].config == config.(name := s.classes[c].config.name)
  {
    hide Inv, LoadFile, Destroy, Without, Marks;
    FileLives(s, c);
    FileDropped(s, c);
    var s1 := s.(files := Without(s.files, c));
    var named := config.(name := s.classes[c].config.name);
    var at := IndexIn(s.files, c);
    LoadFileKeeps(s1, at, named, startOn, w);
    var s2 := LoadFile(s1, at, named, startOn, w).value;
    RewiredChain(s, s1, s2);
    assert s2.classes[c] == s1.classes[c].(startOn := s2.classes[c].startOn);
    DestroyKeeps(s2, c);
    RewiredChain(s, s2, Destroy(s2, c).value);
  }

  /** The class whose file is gone is freed, or is deleted and stays as it was for the sake of its instances. */
  ghost predicate Abandoned(s: Sys, r: Sys, c: ClassId) {
    && c < |s.classes| <= |r.classes| && (LiveClass(r, c) <==> c in r.registered)
    && (LiveClass(r, c) ==> r.classes[c] == s.classes[c].(deleted := true, startOn := r.classes[c].startOn))
  }

  lemma RemoveFileKeeps(s: Sys, c: ClassId)
    requires Inv(s) && c in s.files
    ensures RemoveFile(s, c).Ok? && Rewired(s, RemoveFile(s, c).value) && Abandoned(s, RemoveFile(s, c).value, c)
  {
    hide Inv, Destroy, Without, Marks;
    FileLives(s, c);
    FileDropped(s, c);
    var s1 := s.(files := Without(s.files, c));
    DestroyKeeps(s1, c);
    RewiredChain(s, s1, Destroy(s1, c).value);
  }

  // ---- Hash tables may be walked in any order ----

  lemma SwappedFacts<T(!new)>(xs: seq<T>, i: nat)
    ensures forall x :: x in Swapped(xs, i) <==> x in xs
    ensures Distinct(xs) ==> Distinct(Swapped(xs, i))
  {
    var ys := Swapped(xs, i);
    if i + 1 < |xs| {
      forall x | x in xs ensures x in ys {
        var k :| 0 <= k < |xs| && xs[k] == x;
        assert x == if k == i then ys[i + 1] else if k == i + 1 then ys[i] else ys[k];
      }
    }
  }

  lemma ClassesReorderedKeeps(s: Sys, i: nat)
    requires Inv(s)
    ensures Rewired(s, s.(registered := Swapped(s.registered, i)))
  {
    hide Balanced, Linked, Queued, SoundTrees, InstancesAgree, FilesAgree, Swapped;
    var r := s.(registered := Swapped(s.registered, i));
    SwappedFacts(s.registered, i);
    forall d | d in r.registered ensures LiveClass(r, d) { assert LiveClass(s, d); }
    RegistryFrame(s, r);
    forall k: JobId ensures JobAtRest(r, k) { assert JobAtRest(s, k); }
  }

  lemma InstancesReorderedKeeps(s: Sys, c: ClassId, i: nat)
    requires Inv(s) && LiveClass(s, c)
    ensures Rewired(s, SetClass(s, c, s.classes[c].(instances := Swapped(s.classes[c].instances, i))))
  {
    hide Balanced, Linked, Queued, Swapped;
    var r := SetClass(s, c, s.classes[c].(instances := Swapped(s.classes[c].instances, i)));
    SwappedFacts(s.classes[c].instances, i);
    ReorderedBalance(s, r);
    LinksKept(s, r);
    QueueKept(s, r);
    ReorderedTables(s, c, r);
    forall k: JobId ensures JobAtRest(r, k) { assert JobAtRest(s, k); }
  }

  lemma ReorderedBalance(s: Sys, r: Sys)
    requires Balanced(s) && r.jobs == s.jobs && r.events == s.events && |r.classes| == |s.classes|
    requires forall c :: 0 <= c < |s.classes| ==> r.classes[c].startOn == s.classes[c].startOn
    ensures Balanced(r)
  {
    forall e: EventId ensures Blockers(r, e) == Holds(r, e) {
      SameClassHolds(s.classes, r.classes, e);
      assert Blockers(s, e) == Holds(s, e);
    }
  }

  lemma ReorderedTables(s: Sys, c: ClassId, r: Sys)
    requires RegisteredOnce(s) && InstancesAgree(s) && FilesAgree(s) && c < |s.classes| && |r.classes| == |s.classes|
    requires r == s.(classes := s.classes[c := s.classes[c].(instances := r.classes[c].instances)])
    requires Distinct(r.classes[c].instances) && forall k :: k in r.classes[c].instances <==>
               k in s.classes[c].instances
    ensures RegisteredOnce(r) && InstancesAgree(r) && FilesAgree(r)
  {
    forall d | d in r.registered ensures LiveClass(r, d) { assert LiveClass(s, d); }
    forall d | 0 <= d < |r.classes| && r.classes[d].instances != [] ensures d in r.registered {
      assert r.classes[d].instances[0] in s.classes[d].instances;
    }
    forall k: JobId | LiveJob(r, k) ensures LiveClass(r, r.jobs[k].cls) && k in r.classes[r.jobs[k].cls].instances {
      assert LiveJob(s, k);
    }
    forall d, k: JobId | 0 <= d < |r.classes| && k in r.classes[d].instances
      ensures LiveJob(r, k) && r.jobs[k].cls == d
    {
      assert k in s.classes[d].instances;
      assert LiveJob(s, k);
    }
    forall d | 0 <= d < |r.classes|
      ensures Distinct(r.classes[d].instances)
    {
      assert Distinct(s.classes[d].instances);
    }
    forall d | d in r.files ensures LiveClass(r, d) && !r.classes[d].deleted { assert LiveClass(s, d); }
  }
}

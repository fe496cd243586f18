/** Start conditions over whole runs: what a class has waited for is never lost, not even when its file is reloaded. */
module StartProgress {
  import opened Wrappers
  import opened Condition
  import opened JobMachine
  import opened Supervisor
  import opened SupervisorSteps
  import opened Invariant
  import opened Transitions
  import opened CommandSteps
  import opened OfferSteps
  import opened EventSteps
  import opened ConfigSteps

  /**
   Every leaf holds an event that matches it, and every event the condition holds has been
   offered to all its leaves.
   */
  ghost predicate Earned(t: Cond, matches: Matches) { Sound(t) && Honest(t, matches) && Closed(t, matches) }

  /** All start conditions are as their events made them. */
  ghost predicate Trusty(s: Sys, w: World) {
    forall c :: 0 <= c < |s.classes| && s.classes[c].startOn.Some? ==>
        Earned(s.classes[c].startOn.value, StartMatches(s, w))
  }

  // ---- Matching does not change ----

  /** The two agree about this event. */
  ghost predicate Agree(a: Matches, b: Matches, e: EventId) { forall name, args ::
    a(e, name, args) == b(e, name, args) }

  lemma {:induction false} HonestAgree(t: Cond, a: Matches, b: Matches)
    requires Honest(t, a) && forall e :: e in Held(t) ==> Agree(a, b, e)
    ensures Honest(t, b)
  {
    match t
    case Leaf(_, _, _, event) => if event.Some? { assert event.value in Held(t); }
    case Node(_, _, l, r) =>
      HonestAgree(l, a, b);
      HonestAgree(r, a, b);
  }

  lemma {:induction false} CoversAgree(t: Cond, e: EventId, a: Matches, b: Matches)
    requires Covers(t, e, a) && Agree(a, b, e)
    ensures Covers(t, e, b)
  {
    if t.Node? {
      CoversAgree(t.left, e, a, b);
      CoversAgree(t.right, e, a, b);
    }
  }

  lemma EarnedAgree(t: Cond, a: Matches, b: Matches)
    requires Earned(t, a) && forall e :: e in Held(t) ==> Agree(a, b, e)
    ensures Earned(t, b)
  {
    HonestAgree(t, a, b);
    forall e | e in Held(t) ensures Covers(t, e, b) { CoversAgree(t, e, a, b); }
  }

  lemma EarnedAfresh(t: Cond, matches: Matches)
    ensures Earned(Fresh(t), matches)
  {
    FreshHoldsNothing(t);
    FreshHonest(t, matches);
  }

  lemma {:induction false} FreshHonest(t: Cond, matches: Matches)
    ensures Honest(Fresh(t), matches)
  {
    if t.Node? {
      FreshHonest(t.left, matches);
      FreshHonest(t.right, matches);
    }
  }

  /** Events are what they were. */
  lemma EarnedLater(s: Sys, r: Sys, c: ClassId, w: World)
    requires Inv(s) && Trusty(s, w) && Evolves(s, r) && c < |s.classes| && s.classes[c].startOn.Some?
    ensures Earned(s.classes[c].startOn.value, StartMatches(r, w))
  {
    hide Inv;
    StartHeldLive(s, c);
    EarnedAgree(s.classes[c].startOn.value, StartMatches(s, w), StartMatches(r, w));
  }

  lemma TrustyFrame(s: Sys, r: Sys, w: World)
    requires Inv(s) && Trusty(s, w) && Evolves(s, r) && |r.classes| == |s.classes|
    requires forall c :: 0 <= c < |s.classes| ==>
               r.classes[c].startOn == s.classes[c].startOn || r.classes[c].startOn.None?
    ensures Trusty(r, w)
  {
    hide Inv, Evolves, Earned;
    forall c | 0 <= c < |r.classes| && r.classes[c].startOn.Some?
      ensures Earned(r.classes[c].startOn.value, StartMatches(r, w))
    {
      EarnedLater(s, r, c, w);
    }
  }

  /** One start condition is replaced by another that has earned what it holds. */
  lemma TrustyOne(s: Sys, r: Sys, c: ClassId, t: Cond, w: World)
    requires Inv(s) && Trusty(s, w) && Evolves(s, r) && OneStart(s, r, c, Some(t)) && Earned(t, StartMatches(r, w))
    ensures Trusty(r, w)
  {
    hide Inv, Evolves, Earned;
    forall d | 0 <= d < |r.classes| && r.classes[d].startOn.Some?
      ensures Earned(r.classes[d].startOn.value, StartMatches(r, w))
    {
      if d != c { EarnedLater(s, r, d, w); }
    }
  }

  // ---- Events offered ----

  lemma HandleEarned(s: Sys, r: Sys, e: EventId, c: ClassId, w: World)
    requires Inv(s) && Trusty(s, w) && Evolves(s, r) && c < |s.classes| && s.classes[c].startOn.Some? && e < |s.events|
    ensures Earned(Handle(s.classes[c].startOn.value, e, HitBy(w, s.events[e].what, [])), StartMatches(r, w))
  {
    hide Inv;
    var t := s.classes[c].startOn.value;
    var m := StartMatches(r, w);
    EarnedLater(s, r, c, w);
    HandleKeeps(t, e, Of(m, e));
    HandleHonest(t, e, m);
    HandleClosed(t, e, m);
    SameAnswers(t, e, HitBy(w, s.events[e].what, []), Of(m, e));
  }

  lemma OfferStartTrusty(s: Sys, e: EventId, c: ClassId, w: World, luck: Oracle)
    requires Inv(s) && NoneWaiting(s) && c in s.registered && LiveClass(s, c) && LiveEvent(s, e) && Trusty(s, w)
    ensures OfferStart(s, e, c, w, luck).Ok? && Trusty(OfferStart(s, e, c, w, luck).value.sys, w)
  {
    hide Inv, NoneWaiting, OfferStart, Earned, Trusty;
    OfferStartKeeps(s, e, c, w, luck);
    var r := OfferStart(s, e, c, w, luck).value.sys;
    FollowsQuiet(s, r);
    QuietEvolves(s, r);
    if s.classes[c].startOn.Some? {
      var t := Handle(s.classes[c].startOn.value, e, HitBy(w, s.events[e].what, []));
      HandleEarned(s, r, e, c, w);
      EarnedAfresh(t, StartMatches(r, w));
      if OneStart(s, r, c, Some(t)) { TrustyOne(s, r, c, t, w); } else { TrustyOne(s, r, c, Fresh(t), w); }
    }
  }

  lemma {:induction false} OfferAllTrusty(s: Sys, e: EventId, cs: seq<ClassId>, w: World, luck: Oracle)
    requires Inv(s) && NoneWaiting(s) && LiveEvent(s, e) && Trusty(s, w) && forall c :: c in cs ==> c in s.registered
    ensures OfferAll(s, e, cs, w, luck).Ok? && Trusty(OfferAll(s, e, cs, w, luck).value, w)
    decreases |cs|
  {
    hide Inv, NoneWaiting, Follows, OfferStops, OfferStart, Trusty;
    if cs != [] {
      var c := cs[0];
      InstancesLive(s, c);
      OfferStopsKeeps(s, e, s.classes[c].instances, w, luck);
      var s1 := OfferStops(s, e, s.classes[c].instances, w, luck).value;
      FollowsLive(s, s1, e, []);
      FollowsQuiet(s, s1);
      QuietEvolves(s, s1);
      TrustyFrame(s, s1, w);
      InstancesLive(s1, c);
      OfferStartKeeps(s1, e, c, w, luck);
      OfferStartTrusty(s1, e, c, w, luck);
      var i := OfferStart(s1, e, c, w, luck).value;
      FollowsLive(s1, i.sys, e, []);
      FollowsTables(s1, i.sys);
      if i.success { OfferAllTrusty(i.sys, e, cs[1..], w, luck); }
    }
  }

  lemma EventPendingTrusty(s: Sys, e: EventId, w: World, luck: Oracle)
    requires Inv(s) && NoneWaiting(s) && Chronicle(s) && LiveEvent(s, e) && s.events[e].progress.Pending?
    requires Trusty(s, w)
    ensures EventPending(s, e, w, luck).Ok? && Trusty(EventPending(s, e, w, luck).value, w)
  {
    hide Inv, NoneWaiting, Chronicle, Trusty, OfferAll;
    var s1 := Noted(SetEvent(s, e, s.events[e].(progress := Handling)), Offered(e));
    ProgressedKeeps(s, s1, e);
    OfferedChronicle(s, e, s1);
    TrustyFrame(s, s1, w);
    OfferAllTrusty(s1, e, s.registered, w, luck);
  }

  lemma {:induction false} PollTrusty(s: Sys, i: nat, again: bool, turns: nat, w: World, luck: Oracle)
    requires Between(s) && Trusty(s, w)
    ensures Poll(s, i, again, turns, w, luck).Ok? && Trusty(Poll(s, i, again, turns, w, luck).value.sys, w)
    decreases turns
  {
    hide Inv, NoneWaiting, Chronicle, NoneFinished, EventPending, EventFinished, Evolves, Trusty;
    if turns > 0 && i >= |s.queue| && again {
      PollTrusty(s, 0, false, turns - 1, w, luck);
    } else if turns > 0 && i < |s.queue| {
      QueuedLive(s, i);
      var e := s.queue[i];
      var pending := s.events[e].progress.Pending?;
      var s1 := s;
      if pending {
        EventPendingKeeps(s, e, w, luck);
        EventPendingTrusty(s, e, w, luck);
        s1 := EventPending(s, e, w, luck).value;
        StillNoneFinished(s, s1, e);
      } else {
        HandledNow(s, e);
      }
      if s1.events[e].blockers > 0 {
        PollTrusty(s1, i + 1, again || pending, turns - 1, w, luck);
      } else {
        ToFinished(s1, e, w, luck);
        var s2 := EventFinished(SetEvent(s1, e, s1.events[e].(progress := Finished)), e, w, luck).value;
        TrustyFrame(s1, s2, w);
        PollTrusty(s2, i, true, turns - 1, w, luck);
      }
    }
  }

  // ---- Steps of one job ----

  lemma TouchedTrusty(s: Sys, r: Sys, j: JobId, w: World)
    requires Inv(s) && Trusty(s, w) && Touches(s, r, j)
    ensures Trusty(r, w)
  {
    hide Inv, Trusty;
    CalmQuiet(s, r);
    QuietEvolves(s, r);
    TrustyFrame(s, r, w);
  }

  lemma CalmQuiet(s: Sys, r: Sys)
    requires Calm(s, r)
    ensures EventsQuiet(s, r)
  {
  }

  // ---- Configuration ----

  /** Files, registrations and marks do not matter. */
  lemma RewiredTrusty(s: Sys, r: Sys, w: World)
    requires Inv(s) && Trusty(s, w) && Rewired(s, r) && |r.classes| == |s.classes|
    requires forall c :: 0 <= c < |s.classes| ==>
               r.classes[c].startOn == s.classes[c].startOn || r.classes[c].startOn.None?
    ensures Trusty(r, w)
  {
    hide Inv, Trusty;
    QuietEvolves(s, r);
    TrustyFrame(s, r, w);
  }

  lemma NewClassTrusty(s: Sys, at: nat, config: Config, startOn: Option<Cond>, w: World)
    requires Inv(s) && Trusty(s, w)
    ensures Trusty(NewClass(s, at, config, startOn), w)
  {
    hide Inv, Earned, Evolves, StartMatches;
    var r := NewClass(s, at, config, startOn);
    QuietEvolves(s, r);
    forall c | 0 <= c < |r.classes| && r.classes[c].startOn.Some?
      ensures Earned(r.classes[c].startOn.value, StartMatches(r, w))
    {
      if c < |s.classes| { EarnedLater(s, r, c, w); } else { EarnedAfresh(startOn.value, StartMatches(r, w)); }
    }
  }

  lemma EventBlockTrusty(s: Sys, old_: ClassId, new_: ClassId, w: World)
    requires Inv(s) && LiveClass(s, old_) && LiveClass(s, new_) && Trusty(s, w)
    ensures EventBlock(s, old_, new_, w).Ok? && Trusty(EventBlock(s, old_, new_, w).value, w)
  {
    hide Inv, TransferBlocks, Transfer, Evolves;
    if s.classes[old_].startOn.Some? && s.classes[new_].startOn.Some? && s.classes[old_].instances == [] {
      StartHeldLive(s, old_);
      var es, t := Held(s.classes[old_].startOn.value), s.classes[new_].startOn.value;
      TransferBlocksKeeps(s, new_, es, w);
      var r := TransferBlocks(s, new_, es, w).value;
      QuietEvolves(s, r);
      TransferEarned(s, r, new_, es, w);
      TrustyOne(s, r, new_, Transfer(t, es, StartMatches(s, w)), w);
    }
  }

  lemma TransferEarned(s: Sys, r: Sys, c: ClassId, es: seq<EventId>, w: World)
    requires Inv(s) && Trusty(s, w) && Evolves(s, r) && c < |s.classes| && s.classes[c].startOn.Some?
    requires forall e :: e in es ==> e < |s.events|
    ensures Earned(Transfer(s.classes[c].startOn.value, es, StartMatches(s, w)), StartMatches(r, w))
  {
    hide Inv;
    var t, m := s.classes[c].startOn.value, StartMatches(s, w);
    assert Earned(t, m);
    TransferClosed(t, es, m);
    TransferKeeps(t, es, m);
    StartHeldLive(s, c);
    EarnedAgree(Transfer(t, es, m), m, StartMatches(r, w));
  }

  lemma ConsiderTrusty(s: Sys, c: ClassId, w: World)
    requires Inv(s) && c in s.files && LiveClass(s, c) && Trusty(s, w)
    ensures Consider(s, c, w).Ok? && Trusty(Consider(s, c, w).value, w)
  {
    hide Inv, EventBlock, ResetStart, Trusty, Evolves;
    ConsiderKeeps(s, c, w);
    var r := Consider(s, c, w).value;
    var name := s.classes[c].config.name;
    BestLives(s, name);
    var best, registered := Select(s, name).value, Registered(s, name);
    if registered == Some(best) || registered.None? {
      RewiredTrusty(s, r, w);
    } else {
      EventBlockKeeps(s, registered.value, best, w);
      EventBlockTrusty(s, registered.value, best, w);
      var s1 := EventBlock(s, registered.value, best, w).value;
      if s1.classes[registered.value].instances != [] {
        ResetStartKeeps(s1, best);
        ClassHoldsRewired(s1, r, best);
        QuietEvolves(s1, r);
        ResetTrusty(s1, r, best, w);
      } else {
        SameStarts(s1, r);
        QuietEvolves(s1, r);
        TrustyFrame(s1, r, w);
      }
    }
  }

  lemma SameStarts(s: Sys, r: Sys)
    requires r == s.(registered := r.registered)
    ensures EventsQuiet(s, r)
  {
  }

  lemma ResetTrusty(s: Sys, r: Sys, c: ClassId, w: World)
    requires Inv(s) && Trusty(s, w) && Evolves(s, r) && ClassHoldsOnly(s, r, c)
    requires s.classes[c].startOn.Some? ==> r.classes[c].startOn == Some(Fresh(s.classes[c].startOn.value))
    requires s.classes[c].startOn.None? ==> r.classes[c].startOn.None?
    ensures Trusty(r, w)
  {
    hide Inv, Trusty, Evolves, Earned;
    if s.classes[c].startOn.Some? {
      var t := Fresh(s.classes[c].startOn.value);
      EarnedAfresh(s.classes[c].startOn.value, StartMatches(r, w));
      TrustyOne(s, r, c, t, w);
    } else {
      TrustyFrame(s, r, w);
    }
  }

  lemma LoadFileTrusty(s: Sys, at: nat, config: Config, startOn: Option<Cond>, w: World)
    requires Inv(s) && Trusty(s, w)
    ensures LoadFile(s, at, config, startOn, w).Ok? && Trusty(LoadFile(s, at, config, startOn, w).value, w)
  {
    hide Inv, Consider, Trusty;
    NewClassKeeps(s, at, config, startOn);
    NewClassTrusty(s, at, config, startOn, w);
    ConsiderTrusty(NewClass(s, at, config, startOn), |s.classes|, w);
  }

  lemma DestroyTrusty(s: Sys, c: ClassId, w: World)
    requires Inv(s) && LiveClass(s, c) && c !in s.files && Trusty(s, w)
    ensures Destroy(s, c).Ok? && Trusty(Destroy(s, c).value, w)
  {
    hide Inv, Trusty;
    DestroyKeeps(s, c);
    RewiredTrusty(s, Destroy(s, c).value, w);
  }

  lemma ReloadFileTrusty(s: Sys, c: ClassId, config: Config, startOn: Option<Cond>, w: World)
    requires Inv(s) && Trusty(s, w) && c in s.files
    ensures ReloadFile(s, c, config, startOn, w).Ok? && Trusty(ReloadFile(s, c, config, startOn, w).value, w)
  {
    hide Inv, LoadFile, Destroy, Without, Trusty;
    FileLives(s, c);
    FileDropped(s, c);
    var s1 := s.(files := Without(s.files, c));
    RewiredTrusty(s, s1, w);
    var named := config.(name := s.classes[c].config.name);
    var at := IndexIn(s.files, c);
    LoadFileKeeps(s1, at, named, startOn, w);
    LoadFileTrusty(s1, at, named, startOn, w);
    var s2 := LoadFile(s1, at, named, startOn, w).value;
    assert s2.classes[c] == s1.classes[c].(startOn := s2.classes[c].startOn);
    DestroyTrusty(s2, c, w);
  }

  lemma RemoveFileTrusty(s: Sys, c: ClassId, w: World)
    requires Inv(s) && Trusty(s, w) && c in s.files
    ensures RemoveFile(s, c).Ok? && Trusty(RemoveFile(s, c).value, w)
  {
    hide Inv, Destroy, Without, Trusty;
    FileLives(s, c);
    FileDropped(s, c);
    var s1 := s.(files := Without(s.files, c));
    RewiredTrusty(s, s1, w);
    DestroyTrusty(s1, c, w);
  }

  // ---- A reload with an unchanged start condition ----

  /** A file that is best for its name stays so when it is replaced at its place. */
  lemma {:induction false} ReplacedIsBest(s: Sys, r: Sys, ids: seq<ClassId>, c: ClassId, n: ClassId, name: string)
    requires Named(s, ids, name) == Some(c) && |s.classes| <= n < |r.classes| && r.classes[n].config.name == name
    requires forall d :: 0 <= d < |s.classes| ==> r.classes[d].config == s.classes[d].config
    requires forall d :: d in ids ==> d < |s.classes|
    ensures var rest, i := Without(ids, c), IndexIn(ids, c);
            i <= |rest| && Named(r, rest[..i] + [n] + rest[i..], name) == Some(n)
  {
    var rest, i := Without(ids, c), IndexIn(ids, c);
    if ids[0] == c {
      assert rest[..0] + [n] + rest[0..] == [n] + rest;
    } else {
      assert ids[0] in ids && forall d :: d in ids[1..] ==> d in ids;
      ReplacedIsBest(s, r, ids[1..], c, n, name);
      var rest', i' := Without(ids[1..], c), IndexIn(ids[1..], c);
      assert (rest[..i] + [n] + rest[i..])[1..] == rest'[..i'] + [n] + rest'[i'..];
    }
  }

  /** The class is registered, has a start condition and has no instances. */
  ghost predicate Replaceable(s: Sys, c: ClassId) {
    LiveClass(s, c) && c in s.registered && s.classes[c].instances == [] && s.classes[c].startOn.Some?
  }

  /** It is then that of the best file with its name. */
  lemma ReplaceableIsBest(s: Sys, c: ClassId)
    requires Inv(s) && Current(s) && Replaceable(s, c)
    ensures Select(s, s.classes[c].config.name) == Some(c) && c in s.files
  {
    hide Base, Current;
    RegisteredHere(s, c);
    CurrentHere(s, s.classes[c].config.name);
    NamedFound(s, s.files, s.classes[c].config.name);
  }

  lemma CurrentHere(s: Sys, name: string)
    requires Current(s)
    ensures CurrentFor(s, name)
  {
  }

  /** The state in which the new class is considered. */
  function Loaded(s: Sys, c: ClassId, config: Config, startOn: Option<Cond>): Sys
    requires c < |s.classes|
  {
    NewClass(s.(files := Without(s.files, c)), IndexIn(s.files, c), config.(name := s.classes[c].config.name), startOn)
  }

  lemma LoadedFacts(s: Sys, c: ClassId, config: Config, startOn: Option<Cond>)
    requires Inv(s) && Current(s) && Replaceable(s, c)
    ensures var r := Loaded(s, c, config, startOn);
            && Rewired(s, r) && |r.classes| == |s.classes| + 1 && LiveClass(r, |s.classes|)
            && r.classes[c] == s.classes[c]
            && |s.classes| in r.files && c !in r.files && Select(r, s.classes[c].config.name) == Some(|s.classes|)
            && Registered(r, s.classes[c].config.name) == Some(c)
            && r.classes[|s.classes|].config.name == s.classes[c].config.name
            && r.classes[|s.classes|].startOn == (if startOn.None? then None else Some(Fresh(startOn.value)))
  {
    hide Inv, Without, Current;
    ReplaceableIsBest(s, c);
    FileDropped(s, c);
    var s1 := s.(files := Without(s.files, c));
    var r := Loaded(s, c, config, startOn);
    var name := s.classes[c].config.name;
    NewClassKeeps(s1, IndexIn(s.files, c), config.(name := name), startOn);
    RewiredChain(s, s1, r);
    FilesLive(s);
    ReplacedIsBest(s, r, s.files, c, |s.classes|, name);
    assert r.classes[c] == r.classes[..|s.classes|][c];
    RegisteredHere(r, c);
  }

  lemma FilesLive(s: Sys)
    requires Inv(s)
    ensures forall d :: d in s.files ==> d < |s.classes|
  {
  }

  lemma RegisteredHere(s: Sys, c: ClassId)
    requires Inv(s) && c in s.registered
    ensures LiveClass(s, c) && Registered(s, s.classes[c].config.name) == Some(c)
  {
    RegisteredName(s, c);
  }

  /** The new class, considered, takes over from the old one with what its condition holds. */
  lemma ConsideredFacts(s: Sys, c: ClassId, n: ClassId, w: World)
    requires Inv(s) && LiveClass(s, c) && LiveClass(s, n) && n in s.files && c != n && s.classes[c].instances == []
    requires s.classes[n].config.name == s.classes[c].config.name && s.classes[c].startOn.Some?
    requires s.classes[n].startOn.Some?
    requires Select(s, s.classes[c].config.name) == Some(n) && Registered(s, s.classes[c].config.name) == Some(c)
    ensures Consider(s, n, w).Ok?
    ensures var r := Consider(s, n, w).value;
            && Rewired(s, r) && r.files == s.files && |r.classes| == |s.classes| && LiveClass(r, c)
            && r.classes[c].config == s.classes[c].config
            && Registered(r, s.classes[c].config.name) == Some(n) && c !in r.registered
            && r.classes[n].startOn ==
               Some(Transfer(s.classes[n].startOn.value, Held(s.classes[c].startOn.value), StartMatches(s, w)))
  {
    hide Inv, TransferBlocks, Transfer;
    var name := s.classes[c].config.name;
    StartHeldLive(s, c);
    TransferBlocksKeeps(s, n, Held(s.classes[c].startOn.value), w);
    ConsiderKeeps(s, n, w);
    var s1 := EventBlock(s, c, n, w).value;
    SameNamed(s, s1, s.registered, name);
    var r := Consider(s, n, w).value;
    Registering(s1, n, r);
    if c in r.registered { RegisteredHere(r, c); }
  }

  /** The old class, no longer registered and without a file, is freed. */
  lemma ReleasedOld(s: Sys, c: ClassId)
    requires Inv(s) && LiveClass(s, c) && c !in s.files && c !in s.registered
    ensures Destroy(s, c).Ok?
    ensures var r := Destroy(s, c).value;
            && Inv(r) && !LiveClass(r, c) && r.registered == s.registered && r.files == s.files
            && |r.classes| == |s.classes|
            && forall d :: 0 <= d < |s.classes| && d != c ==> r.classes[d] == s.classes[d]
  {
    hide Inv, FreeClass;
    var s1 := SetClass(s, c, s.classes[c].(deleted := true));
    DeletedKeeps(s, c);
    NamedFound(s1, s1.registered, s1.classes[c].config.name);
    FreeClassRewired(s1, c);
  }

  /**
   Reloading a class with an unchanged start condition and no instances loses no
   progress: the new class is registered, its condition has exactly the satisfied
   leaves of the old one, holds only events that are alive, and takes the value
   the old one would take at any next event.
   */
  lemma ReloadLosesNothing(s: Sys, c: ClassId, config: Config, startOn: Cond, w: World, e: EventId, hit: Hit)
    requires Inv(s) && Current(s) && Trusty(s, w)
    requires Replaceable(s, c) && Fresh(startOn) == Fresh(s.classes[c].startOn.value)
    ensures ReloadFile(s, c, config, Some(startOn), w).Ok?
    ensures var r, n, t := ReloadFile(s, c, config, Some(startOn), w).value, |s.classes|, s.classes[c].startOn.value;
            && Inv(r) && !LiveClass(r, c) && LiveClass(r, n) && Registered(r, s.classes[c].config.name) == Some(n)
            && r.classes[n].startOn.Some?
            && Satisfied(r.classes[n].startOn.value) == Satisfied(t) && Fresh(r.classes[n].startOn.value) == Fresh(t)
            && (forall x :: x in Held(r.classes[n].startOn.value) ==> LiveEvent(r, x))
            && Handle(r.classes[n].startOn.value, e, hit).value == Handle(t, e, hit).value
            && Taken(r.classes[n].startOn.value, hit) == Taken(t, hit)
  {
    hide Inv, Current, Trusty, Rewired, Loaded, Replaceable, Transfer, ReloadFile, Registered, Handle, Taken, Satisfied;
    ReloadResult(s, c, config, startOn, w);
    var r, n := ReloadFile(s, c, config, Some(startOn), w).value, |s.classes|;
    ReplaceableParts(s, c);
    LoadedFacts(s, c, config, Some(startOn));
    RewiredQuiet(s, Loaded(s, c, config, Some(startOn)));
    ReloadedProgress(s, Loaded(s, c, config, Some(startOn)), c, Fresh(startOn), w);
    SameLeavesSameFuture(r.classes[n].startOn.value, s.classes[c].startOn.value, e, hit);
    StartHeldLive(r, n);
  }

  lemma ReplaceableParts(s: Sys, c: ClassId)
    requires Replaceable(s, c)
    ensures LiveClass(s, c) && s.classes[c].startOn.Some?
  {
  }

  lemma RewiredQuiet(s: Sys, r: Sys)
    requires Rewired(s, r)
    ensures Inv(r) && EventsQuiet(s, r)
  {
  }

  /** What a reload leaves behind. */
  lemma ReloadResult(s: Sys, c: ClassId, config: Config, startOn: Cond, w: World)
    requires Inv(s) && Current(s) && Replaceable(s, c)
    ensures ReloadFile(s, c, config, Some(startOn), w).Ok?
    ensures var r, n, loaded := ReloadFile(s, c, config, Some(startOn), w).value, |s.classes|,
            Loaded(s, c, config, Some(startOn));
            && Inv(r) && !LiveClass(r, c) && LiveClass(r, n) && Registered(r, s.classes[c].config.name) == Some(n)
            && r.classes[n].startOn ==
               Some(Transfer(Fresh(startOn), Held(s.classes[c].startOn.value), StartMatches(loaded, w)))
  {
    hide Inv, Current, Rewired, Destroy, Transfer, Loaded, Replaceable, Consider, Select, Registered, ReloadFile,
      StartMatches;
    ReplaceableParts(s, c);
    ReplaceableIsBest(s, c);
    var n, name := |s.classes|, s.classes[c].config.name;
    LoadedFacts(s, c, config, Some(startOn));
    var s1 := Loaded(s, c, config, Some(startOn));
    RewiredQuiet(s, s1);
    LoadedApart(s, s1, c);
    ConsideredFacts(s1, c, n, w);
    var s2 := Consider(s1, n, w).value;
    RewiredQuiet(s1, s2);
    ReleasedOld(s2, c);
    RegisteredLive(s2, name);
    SameRegistered(s2, Destroy(s2, c).value, name);
    ReloadUnfolds(s, c, config, Some(startOn), w);
  }

  lemma LoadedApart(s: Sys, s1: Sys, c: ClassId)
    requires Replaceable(s, c) && c < |s1.classes| && s1.classes[c] == s.classes[c]
    ensures LiveClass(s1, c) && s1.classes[c].instances == [] && s1.classes[c].startOn.Some?
  {
  }

  lemma RegisteredLive(s: Sys, name: string)
    requires Inv(s) && Registered(s, name).Some?
    ensures LiveClass(s, Registered(s, name).value)
  {
    NamedFound(s, s.registered, name);
  }

  lemma ReloadUnfolds(s: Sys, c: ClassId, config: Config, startOn: Option<Cond>, w: World)
    requires LiveClass(s, c) && c in s.files
    requires Consider(Loaded(s, c, config, startOn), |s.classes|, w).Ok?
    ensures ReloadFile(s, c, config, startOn, w) ==
            Destroy(Consider(Loaded(s, c, config, startOn), |s.classes|, w).value, c)
  {
    hide Destroy, Consider, Without, NewClass;
  }

  lemma SameRegistered(s: Sys, r: Sys, name: string)
    requires Inv(s) && Inv(r) && r.registered == s.registered && |r.classes| == |s.classes|
    requires Registered(s, name).Some? && Registered(s, name).value < |s.classes|
    requires r.classes[Registered(s, name).value] == s.classes[Registered(s, name).value]
    ensures Registered(r, name) == Registered(s, name)
  {
    hide Inv;
    NamedFound(s, s.registered, name);
    RegisteredHere(r, Registered(s, name).value);
  }

  lemma ReloadedProgress(s: Sys, s1: Sys, c: ClassId, new_: Cond, w: World)
    requires Inv(s) && Trusty(s, w) && EventsQuiet(s, s1) && c < |s.classes| && s.classes[c].startOn.Some?
    requires new_ == Fresh(s.classes[c].startOn.value)
    ensures var t, old_ := Transfer(new_, Held(s.classes[c].startOn.value), StartMatches(s1, w)),
            s.classes[c].startOn.value;
            Satisfied(t) == Satisfied(old_) && Fresh(t) == Fresh(old_)
  {
    hide Inv, Trusty, Evolves, Transfer;
    QuietEvolves(s, s1);
    EarnedLater(s, s1, c, w);
    var old_ := s.classes[c].startOn.value;
    FreshTwice(old_);
    FreshHoldsNothing(old_);
    TransferLosesNothing(old_, new_, StartMatches(s1, w), 0);
    TransferKeeps(new_, Held(old_), StartMatches(s1, w));
  }

}

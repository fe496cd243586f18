/** Whom an event reaches: what event_pending_handle_jobs makes of every condition, and where it stops. */
module Reach {
  import opened Wrappers
  import opened Environ
  import opened Condition
  import opened ConditionEnviron
  import opened JobMachine
  import opened Supervisor
  import opened SupervisorSteps
  import opened Lists
  import opened Invariant
  import opened CommandSteps
  import opened CommandOutcomes
  import opened ConditionOutcomes
  import opened OfferSteps
  import opened EventSteps
  import opened ConfigSteps
  import Expansion

  // ---- What a condition should become ----

  /** The event makes the condition true. */
  predicate Trips(t: Option<Cond>, e: EventId, hit: Hit) { t.Some? && Taken(t.value, hit) > 0
    && Handle(t.value, e, hit).value }

  /** A condition that has been offered the event; one that it makes true starts afresh. */
  function Outcome(t: Option<Cond>, e: EventId, hit: Hit): Option<Cond> {
    if t.None? then None
    else if Trips(t, e, hit) then Some(Fresh(t.value))
    else Some(Handle(t.value, e, hit))
  }

  function StopHit(s: Sys, e: EventId, j: JobId, w: World): Hit
    requires j < |s.jobs| && e < |s.events|
  {
    HitBy(w, s.events[e].what, s.jobs[j].env)
  }

  function StartHit(s: Sys, e: EventId, w: World): Hit
    requires e < |s.events|
  {
    HitBy(w, s.events[e].what, [])
  }

  /** The name of the instance that is to start when the event makes the condition true. */
  function InstanceName(s: Sys, e: EventId, c: ClassId, w: World): Result<string, Expansion.Fault>
    requires c < |s.classes| && e < |s.events| && s.classes[c].startOn.Some?
    requires Sound(Handle(s.classes[c].startOn.value, e, StartHit(s, e, w)))
  {
    var config, t := s.classes[c].config, Handle(s.classes[c].startOn.value, e, StartHit(s, e, w));
    Expansion.Expand(config.instance,
      Collected(ClassEnvironment(config, w), t, Described(s.events), "UPSTART_EVENTS", w.outer))
  }

  /** The event makes the start condition true, but the name of the instance cannot be told. */
  ghost predicate Nameless(s: Sys, e: EventId, c: ClassId, w: World)
    requires c < |s.classes| && e < |s.events|
  {
    && Trips(s.classes[c].startOn, e, StartHit(s, e, w))
    && (Sound(Handle(s.classes[c].startOn.value, e, StartHit(s, e, w))) ==> InstanceName(s, e, c, w).Err?)
  }

  /** The event makes the start condition true, and the instance has a name. */
  ghost predicate Starts(s: Sys, e: EventId, c: ClassId, w: World)
    requires c < |s.classes| && e < |s.events|
  {
    && Trips(s.classes[c].startOn, e, StartHit(s, e, w))
    && Sound(Handle(s.classes[c].startOn.value, e, StartHit(s, e, w))) && InstanceName(s, e, c, w).Ok?
  }

  // ---- What the instances should become ----

  /** The table has the variables of the events gathered in the stop condition, and names them. */
  ghost predicate StopTable(s: Sys, t: Cond, table: Env, w: World)
    requires Sound(t)
  {
    var occ := Described(s.events);
    Supplies(table, [Variables(Gathered(t), occ)], map["UPSTART_STOP_EVENTS" := EventNames(Gathered(t), occ)], w.outer)
  }

  ghost predicate StopsAs(s: Sys, e: EventId, j: JobId, after: Job, table: Env, x: EventId, w: World)
    requires j < |s.jobs| && s.jobs[j].cls < |s.classes| && e < |s.events| && s.jobs[j].stopOn.Some?
    requires Sound(Handle(s.jobs[j].stopOn.value, e, StopHit(s, e, j, w)))
  {
    var t := Handle(s.jobs[j].stopOn.value, e, StopHit(s, e, j, w));
    && StopTable(s, t, table, w)
    && after ==
       StoppedBy(s.classes[s.jobs[j].cls].config, s.jobs[j], Fresh(s.jobs[j].stopOn.value), Gathered(t), table, x)
  }

  /**
   The job once its stop condition has been offered the event: if the condition came true, it is
   to stop, and its environment for stopping has what the gathered events say.
   */
  ghost predicate Stopped(s: Sys, e: EventId, j: JobId, after: Job, w: World)
    requires j < |s.jobs| && e < |s.events|
  {
    var job := s.jobs[j];
    if !Trips(job.stopOn, e, StopHit(s, e, j, w)) then
      after == job.(stopOn := Outcome(job.stopOn, e, StopHit(s, e, j, w)))
    else
      && job.cls < |s.classes| && Sound(Handle(job.stopOn.value, e, StopHit(s, e, j, w)))
      && exists table: Env, x: EventId :: StopsAs(s, e, j, after, table, x, w)
  }

  /**
   The table has the variables of the gathered events, below them those of the class, below them
   those of init's own table; it names the events; and the name of the instance is expanded by it.
   */
  ghost predicate StartTable(s: Sys, e: EventId, c: ClassId, table: Env, w: World)
    requires c < |s.classes| && e < |s.events| && Starts(s, e, c, w)
  {
    var config, t := s.classes[c].config, Handle(s.classes[c].startOn.value, e, StartHit(s, e, w));
    var es, occ := Gathered(t), Described(s.events);
    && Supplies(table, Below(config, w) + [Variables(es, occ)], map["UPSTART_EVENTS" := EventNames(es, occ)], w.outer)
    && InstanceName(s, e, c, w) == Expansion.Expand(config.instance, table)
  }

  /** The events that satisfied the start condition. */
  ghost function StartEvents(s: Sys, e: EventId, c: ClassId, w: World): seq<EventId>
    requires c < |s.classes| && e < |s.events| && Starts(s, e, c, w)
  {
    Gathered(Handle(s.classes[c].startOn.value, e, StartHit(s, e, w)))
  }

  ghost predicate StartsAs(s: Sys, e: EventId, c: ClassId, mid: Job, after: Job, table: Env, x: EventId, w: World)
    requires c < |s.classes| && e < |s.events| && Starts(s, e, c, w)
  {
    && StartTable(s, e, c, table, w)
    && after == StartedBy(s.classes[c].config, mid, StartEvents(s, e, c, w), table, x)
  }

  /** The instance that the class is to start, if there is one already. */
  ghost function Picked(s: Sys, e: EventId, c: ClassId, w: World): Option<JobId>
    requires c < |s.classes| && e < |s.events| && Starts(s, e, c, w)
  {
    InstanceNamed(s, s.classes[c].instances, InstanceName(s, e, c, w).value)
  }

  /** The instance once the start condition of its class has been offered the event. */
  ghost predicate Chosen(s: Sys, e: EventId, c: ClassId, j: JobId, mid: Job, after: Job, w: World)
    requires c < |s.classes| && e < |s.events|
  {
    if Starts(s, e, c, w) && Picked(s, e, c, w) == Some(j) then
      exists table: Env, x: EventId :: StartsAs(s, e, c, mid, after, table, x, w)
    else after == mid
  }

  ghost predicate EntersAs(s: Sys, e: EventId, c: ClassId, after: Job, table: Env, x: EventId, w: World)
    requires c < |s.classes| && e < |s.events| && Starts(s, e, c, w)
  {
    && StartTable(s, e, c, table, w)
    && after == Newborn(c, InstanceName(s, e, c, w).value, s.classes[c].config, table, x).(
                  blocking := StartEvents(s, e, c, w))
  }

  /**
   A new instance is at the end of the table of instances exactly if one is to start and
   there is none with its name.
   */
  ghost predicate Enlarged(s: Sys, r: Sys, e: EventId, c: ClassId, w: World)
    requires c < |s.classes| && c < |r.classes| && e < |s.events|
  {
    var before, now := s.classes[c].instances, r.classes[c].instances;
    if Starts(s, e, c, w) && Picked(s, e, c, w).None? then
      && |now| == |before| + 1 && now[..|before|] == before && |s.jobs| <= now[|before|] < |r.jobs|
      && exists table: Env, x: EventId :: EntersAs(s, e, c, r.jobs[now[|before|]], table, x, w)
    else now == before
  }

  /** First its stop condition, then the start condition of its class. */
  ghost predicate InstanceReached(s: Sys, e: EventId, c: ClassId, j: JobId, after: Job, w: World)
    requires c < |s.classes| && e < |s.events| && j < |s.jobs|
  {
    exists mid: Job :: Stopped(s, e, j, mid, w) && Chosen(s, e, c, j, mid, after, w)
  }

  /**
   The event has reached the class: its start condition and the stop conditions of its
   instances have been offered the event; an instance whose condition came true has been told to
   stop; and if the start condition came true, the instance it names, and no other, has been told
   to start, or is new.
   */
  ghost predicate Reached(s: Sys, r: Sys, e: EventId, c: ClassId, w: World)
    requires c < |s.classes| && e < |s.events|
  {
    && c < |r.classes| && r.classes[c].startOn == Outcome(s.classes[c].startOn, e, StartHit(s, e, w))
    && (forall j :: j in s.classes[c].instances && j < |s.jobs| ==>
          j < |r.jobs| && InstanceReached(s, e, c, j, r.jobs[j], w))
    && Enlarged(s, r, e, c, w)
  }

  /** The class and its instances are as they were. */
  ghost predicate Untouched(s: Sys, r: Sys, c: ClassId)
    requires c < |s.classes|
  {
    && c < |r.classes| && r.classes[c] == s.classes[c]
    && forall j :: j in s.classes[c].instances && j < |s.jobs| ==> j < |r.jobs| && r.jobs[j] == s.jobs[j]
  }

  /** The first class of the list that fails; the length of the list if there is none. */
  ghost function FirstNameless(s: Sys, e: EventId, cs: seq<ClassId>, w: World): nat
    requires e < |s.events| && forall c :: c in cs ==> c < |s.classes|
  {
    if cs == [] then 0
    else
      assert cs[0] in cs;
      assert forall c :: c in cs[1..] ==> c in cs;
      if Nameless(s, e, cs[0], w) then 0 else 1 + FirstNameless(s, e, cs[1..], w)
  }

  // ---- Stop conditions ----

  lemma OfferStopReaches(s: Sys, e: EventId, j: JobId, w: World, luck: Oracle)
    requires Inv(s) && NoneWaiting(s) && LiveJob(s, j) && LiveEvent(s, e)
    ensures OfferStop(s, e, j, w, luck).Ok?
    ensures var r := OfferStop(s, e, j, w, luck).value; OnlyJob(s, r, j) && Stopped(s, e, j, r.jobs[j], w)
  {
    hide Inv, Follows, Block, StopByCondition, Handle, Taken, Sound, OnlyJob, NoneWaiting, Stopped, Outcome;
    OfferStopKeeps(s, e, j, w, luck);
    if s.jobs[j].stopOn.Some? {
      var t0, hit := s.jobs[j].stopOn.value, StopHit(s, e, j, w);
      HandleStopKeeps(s, e, j, hit);
      var t := Handle(t0, e, hit);
      var s1 := Block(SetJob(s, j, s.jobs[j].(stopOn := Some(t))), e, Taken(t0, hit)).value;
      if Taken(t0, hit) > 0 && t.value {
        StopByConditionKeeps(s1, j, t, w, luck);
        StopByConditionExactly(s1, j, t, w, luck);
        OnlyJobChain(s, s1, StopByCondition(s1, j, t, w, luck).value, j);
        HandledFresh(s, j, e, hit);
        BlockedWhats(s, j, t, e, Taken(t0, hit));
        TrippedStop(s, s1, e, j, StopByCondition(s1, j, t, w, luck).value.jobs[j], |s1.events|, w);
      } else {
        UntrippedStop(s, e, j, s1.jobs[j], w);
      }
    } else {
      OnlyJobSelf(s, j);
      UntrippedStop(s, e, j, s.jobs[j], w);
    }
  }

  lemma BlockedWhats(s: Sys, j: JobId, t: Cond, e: EventId, n: nat)
    requires LiveJob(s, j) && Block(SetJob(s, j, s.jobs[j].(stopOn := Some(t))), e, n).Ok?
    ensures var r := Block(SetJob(s, j, s.jobs[j].(stopOn := Some(t))), e, n).value;
            forall x :: Described(r.events)(x) == Described(s.events)(x)
  {
  }

  lemma UntrippedStop(s: Sys, e: EventId, j: JobId, after: Job, w: World)
    requires j < |s.jobs| && e < |s.events|
    requires !Trips(s.jobs[j].stopOn, e, StopHit(s, e, j, w))
    requires after == s.jobs[j].(stopOn := if s.jobs[j].stopOn.None? then None
                                           else Some(Handle(s.jobs[j].stopOn.value, e, StopHit(s, e, j, w))))
    ensures Stopped(s, e, j, after, w)
  {
  }

  lemma TrippedStop(s: Sys, s1: Sys, e: EventId, j: JobId, after: Job, x: EventId, w: World)
    requires j < |s.jobs| && s.jobs[j].cls < |s.classes| && e < |s.events| && s.jobs[j].stopOn.Some?
    requires s1.classes == s.classes && j < |s1.jobs| && forall x :: Described(s1.events)(x) == Described(s.events)(x)
    requires Trips(s.jobs[j].stopOn, e, StopHit(s, e, j, w))
    requires var t := Handle(s.jobs[j].stopOn.value, e, StopHit(s, e, j, w));
             && Sound(t) && s1.jobs[j] == s.jobs[j].(stopOn := Some(t)) && Fresh(t) == Fresh(s.jobs[j].stopOn.value)
             && after == StoppedBy(s.classes[s.jobs[j].cls].config, s1.jobs[j], Fresh(t), Gathered(t),
                           Collected([], t, Described(s1.events), "UPSTART_STOP_EVENTS", w.outer), x)
    ensures Stopped(s, e, j, after, w)
  {
    hide Handle, Taken, Sound, Gathered, Collected, Supplies, Halted, Variables, EventNames;
    var t := Handle(s.jobs[j].stopOn.value, e, StopHit(s, e, j, w));
    var table := Collected([], t, Described(s.events), "UPSTART_STOP_EVENTS", w.outer);
    CollectedAgrees([], t, Described(s1.events), Described(s.events), "UPSTART_STOP_EVENTS", w.outer);
    NothingSupplies(w.outer);
    EventsSupply([], [], t, Described(s.events), "UPSTART_STOP_EVENTS", w.outer);
    assert [] + [Variables(Gathered(t), Described(s.events))] == [Variables(Gathered(t), Described(s.events))];
    HaltsAlike(s.classes[s.jobs[j].cls].config, s.jobs[j], t, Gathered(t), table, x);
    assert StopsAs(s, e, j, after, table, x, w);
  }

  /** What the stop condition was does not matter once it is replaced. */
  lemma HaltsAlike(config: Config, job: Job, t: Cond, gathered: seq<EventId>, table: Env, x: EventId)
    ensures StoppedBy(config, job.(stopOn := Some(t)), Fresh(t), gathered, table, x) ==
            StoppedBy(config, job, Fresh(t), gathered, table, x)
  {
  }

  lemma OnlyJobSelf(s: Sys, j: JobId)
    requires j < |s.jobs|
    ensures OnlyJob(s, s, j)
  {
  }

  lemma HandledFresh(s: Sys, j: JobId, e: EventId, hit: Hit)
    requires Inv(s) && j < |s.jobs| && s.jobs[j].stopOn.Some?
    ensures Fresh(Handle(s.jobs[j].stopOn.value, e, hit)) == Fresh(s.jobs[j].stopOn.value)
  {
    hide Inv;
    InvParts(s);
    SoundStop(s, j);
    HandleKeeps(s.jobs[j].stopOn.value, e, hit);
  }

  /** Every job of the list has been offered the event; the others are as they were. */
  ghost predicate StopsReached(s: Sys, r: Sys, e: EventId, js: seq<JobId>, w: World)
    requires e < |s.events|
  {
    && r.classes == s.classes && |r.jobs| == |s.jobs|
    && (forall k :: 0 <= k < |s.jobs| ==> r.jobs[k].cls == s.jobs[k].cls && r.jobs[k].name == s.jobs[k].name)
    && (forall k :: 0 <= k < |s.jobs| && k !in js ==> r.jobs[k] == s.jobs[k])
    && (forall j :: j in js && j < |s.jobs| ==> Stopped(s, e, j, r.jobs[j], w))
  }

  lemma {:induction false} OfferStopsReaches(s: Sys, e: EventId, js: seq<JobId>, w: World, luck: Oracle)
    requires Inv(s) && NoneWaiting(s) && LiveEvent(s, e) && Distinct(js) && forall j :: j in js ==> LiveJob(s, j)
    ensures OfferStops(s, e, js, w, luck).Ok? && StopsReached(s, OfferStops(s, e, js, w, luck).value, e, js, w)
    decreases |js|
  {
    hide Inv, Follows, OfferStop, NoneWaiting, Stopped;
    if js != [] {
      OfferStopKeeps(s, e, js[0], w, luck);
      OfferStopReaches(s, e, js[0], w, luck);
      var s1 := OfferStop(s, e, js[0], w, luck).value;
      FollowsLive(s, s1, e, js[1..]);
      FollowsQuiet(s, s1);
      assert Distinct(js[1..]) && js[0] !in js[1..];
      OfferStopsReaches(s1, e, js[1..], w, luck);
      StopsJoined(s, s1, OfferStops(s1, e, js[1..], w, luck).value, e, js, w);
    }
  }

  lemma StopsJoined(s: Sys, s1: Sys, r: Sys, e: EventId, js: seq<JobId>, w: World)
    requires Inv(s) && LiveEvent(s, e) && SameWhats(s, s1)
    requires js != [] && js[0] !in js[1..] && OnlyJob(s, s1, js[0]) && forall j :: j in js ==> LiveJob(s, j)
    requires e < |s1.events| && StopsReached(s1, r, e, js[1..], w)
    requires Stopped(s, e, js[0], s1.jobs[js[0]], w)
    ensures StopsReached(s, r, e, js, w)
  {
    hide Inv, Stopped;
    assert forall k :: k in js <==> k == js[0] || k in js[1..];
    forall j | j in js && j < |s.jobs| ensures Stopped(s, e, j, r.jobs[j], w) {
      if j != js[0] {
        assert s1.jobs[j] == s.jobs[j];
        JobInClass(s, j);
        StoppedStable(s, s1, e, j, r.jobs[j], w);
      }
    }
  }

  /** Events are what they were, and there may be more. */
  ghost predicate SameWhats(s: Sys, r: Sys) {
    |s.events| <= |r.events| && forall x :: 0 <= x < |s.events| ==> r.events[x].what == s.events[x].what
  }

  /** What a stop condition does to its job is settled before the event is offered to anybody. */
  lemma StoppedStable(s: Sys, s1: Sys, e: EventId, j: JobId, after: Job, w: World)
    requires Inv(s) && LiveEvent(s, e) && SameWhats(s, s1) && e < |s1.events|
    requires j < |s.jobs| && j < |s1.jobs| && s1.jobs[j] == s.jobs[j]
    requires s.jobs[j].cls < |s.classes| && s.jobs[j].cls < |s1.classes|
    requires s1.classes[s.jobs[j].cls].config == s.classes[s.jobs[j].cls].config
    requires Stopped(s1, e, j, after, w)
    ensures Stopped(s, e, j, after, w)
  {
    hide Inv, Handle, Taken, Sound, Gathered, Supplies, Variables, EventNames, StoppedBy;
    assert StopHit(s1, e, j, w) == StopHit(s, e, j, w);
    if Trips(s.jobs[j].stopOn, e, StopHit(s, e, j, w)) {
      var t := Handle(s.jobs[j].stopOn.value, e, StopHit(s, e, j, w));
      var table: Env, x: EventId :| StopsAs(s1, e, j, after, table, x, w);
      StopGatheredKnown(s, e, j, StopHit(s, e, j, w));
      NamesAgree(Gathered(t), Described(s1.events), Described(s.events));
      assert StopsAs(s, e, j, after, table, x, w);
    }
  }

  lemma StopGatheredKnown(s: Sys, e: EventId, j: JobId, hit: Hit)
    requires Inv(s) && LiveEvent(s, e) && j < |s.jobs| && s.jobs[j].stopOn.Some?
    requires Sound(Handle(s.jobs[j].stopOn.value, e, hit))
    ensures forall x :: x in Gathered(Handle(s.jobs[j].stopOn.value, e, hit)) ==> x < |s.events|
  {
    hide Inv;
    InvParts(s);
    SoundStop(s, j);
    var t0 := s.jobs[j].stopOn.value;
    var t := Handle(t0, e, hit);
    HandleKeeps(t0, e, hit);
    GatheredIsHeld(t);
    StopHoldsCovered(s, j);
    forall x | x in Gathered(t) ensures x < |s.events| {
      assert x in multiset(Held(t));
      assert x == e || x in multiset(Held(t0));
      assert x == e || x in HeldBy(s.jobs[j].stopOn);
    }
  }

  // ---- Start conditions ----

  /** Only the class and its instances differ, and those keep their stop conditions. */
  ghost predicate OnlyClass(s: Sys, r: Sys, c: ClassId) {
    && |s.jobs| <= |r.jobs| && |r.classes| == |s.classes|
    && (forall d :: 0 <= d < |s.classes| && d != c ==> r.classes[d] == s.classes[d])
    && (forall k :: 0 <= k < |s.jobs| ==>
          r.jobs[k].cls == s.jobs[k].cls && (s.jobs[k].cls != c ==> r.jobs[k] == s.jobs[k]))
  }

  /** Only the instance with the name is concerned: it has been told to start, or is new. */
  ghost predicate Summoned(s: Sys, r: Sys, c: ClassId, name: string, gathered: seq<EventId>, env: Env, x: EventId)
    requires c < |s.classes|
  {
    var config, picked := s.classes[c].config, InstanceNamed(s, s.classes[c].instances, name);
    && c < |r.classes|
    && if picked.Some? then
         && picked.value < |s.jobs| == |r.jobs| && r.classes[c].instances == s.classes[c].instances
         && r.jobs[picked.value] == StartedBy(config, s.jobs[picked.value], gathered, env, x)
         && forall k :: 0 <= k < |s.jobs| && k != picked.value ==> r.jobs[k] == s.jobs[k]
       else
         && |r.jobs| == |s.jobs| + 1 && r.classes[c].instances == s.classes[c].instances + [|s.jobs|]
         && r.jobs[|s.jobs|] == Newborn(c, name, config, env, x).(blocking := gathered)
         && forall k :: 0 <= k < |s.jobs| ==> r.jobs[k] == s.jobs[k]
  }

  /** job_class_induct_job: the instance with the name has been told to start. */
  lemma InductReaches(s: Sys, c: ClassId, t: Cond, w: World, luck: Oracle)
    requires Inv(s) && NoneWaiting(s) && c in s.registered && LiveClass(s, c) && s.classes[c].startOn == Some(t)
    requires Sound(t)
    ensures Induct(s, c, t, w, luck).Ok?
    ensures var i, config := Induct(s, c, t, w, luck).value, s.classes[c].config;
            var env := Collected(ClassEnvironment(config, w), t, Described(s.events), "UPSTART_EVENTS", w.outer);
            var name := Expansion.Expand(config.instance, env);
            && OnlyClass(s, i.sys, c) && c < |i.sys.classes| && i.sys.classes[c].startOn == Some(Fresh(t))
            && (i.success <==> name.Ok?)
            && (name.Ok? ==> Summoned(s, i.sys, c, name.value, Gathered(t), env, |s.events|))
            && (name.Err? ==> i.sys.jobs == s.jobs && i.sys.classes[c].instances == s.classes[c].instances)
  {
    hide Inv, Follows, StartByCondition, ResetStart, FindOrCreate, Collected, ClassEnvironment, NoneWaiting, OnlyJob,
      Sound, Gathered, StartedBy, Looked, Summoned;
    InductKeeps(s, c, t, w, luck);
    var config := s.classes[c].config;
    var env := Collected(ClassEnvironment(config, w), t, Described(s.events), "UPSTART_EVENTS", w.outer);
    var name := Expansion.Expand(config.instance, env);
    if name.Err? {
      ResetStartKeeps(s, c);
    } else {
      FindOrCreateKeeps(s, c, name.value);
      var f := FindOrCreate(s, c, name.value).value;
      GrowsFollows(s, f.sys, c);
      FoundAlone(s, f, c);
      StartByConditionKeeps(f.sys, c, f.job, t, env, w, luck);
      StartByConditionExactly(f.sys, c, f.job, t, env, w, luck);
      var s1 := StartByCondition(f.sys, c, f.job, t, env, w, luck).value;
      ResetStartKeeps(s1, c);
      Inducts(s, f, s1, ResetStart(s1, c).value, c, name.value, Gathered(t), env);
    }
  }

  lemma FoundAlone(s: Sys, f: Found, c: ClassId)
    requires NoneWaiting(s) && Grows(s, f.sys, c) && |f.sys.jobs| <= |s.jobs| + 1
    requires (|f.sys.jobs| > |s.jobs| ==> f.job == |s.jobs|)
    ensures forall k: JobId :: LiveJob(f.sys, k) && k != f.job ==> !f.sys.jobs[k].state.Waiting?
  {
    forall k: JobId | LiveJob(f.sys, k) && k != f.job ensures !f.sys.jobs[k].state.Waiting? {
      assert LiveJob(s, k);
    }
  }

  lemma Inducts(s: Sys, f: Found, s1: Sys, r: Sys, c: ClassId, name: string, gathered: seq<EventId>, env: Env)
    requires c < |s.classes| && Looked(s, f, c, name) && f.job < |f.sys.jobs| && f.sys.jobs[f.job].cls == c
    requires OnlyJob(f.sys, s1, f.job) && ClassHoldsOnly(s1, r, c) && |f.sys.events| == |s.events|
    requires s1.jobs[f.job] == StartedBy(s.classes[c].config, f.sys.jobs[f.job], gathered, env, |s.events|)
    ensures OnlyClass(s, r, c) && Summoned(s, r, c, name, gathered, env, |s.events|)
  {
    InstanceFound(s, s.classes[c].instances, name);
  }

  lemma OfferStartReaches(s: Sys, e: EventId, c: ClassId, w: World, luck: Oracle)
    requires Inv(s) && NoneWaiting(s) && c in s.registered && LiveClass(s, c) && LiveEvent(s, e)
    ensures OfferStart(s, e, c, w, luck).Ok?
    ensures var i := OfferStart(s, e, c, w, luck).value;
            && OnlyClass(s, i.sys, c) && (i.success <==> !Nameless(s, e, c, w)) && StartReached(s, i.sys, e, c, w)
  {
    hide Inv, NoneWaiting, Block, Induct, Handle, Taken, Sound, Follows, Collected, ClassEnvironment, Summoned,
      StartReached, StartTable, Gathered;
    OfferStartKeeps(s, e, c, w, luck);
    if s.classes[c].startOn.None? {
      NotStarted(s, s, e, c, w);
    } else {
      var t0, hit := s.classes[c].startOn.value, StartHit(s, e, w);
      HandleStartKeeps(s, e, c, hit);
      var t := Handle(t0, e, hit);
      var s1 := Block(SetClass(s, c, s.classes[c].(startOn := Some(t))), e, Taken(t0, hit)).value;
      HandledStartFresh(s, c, e, hit);
      FollowsQuiet(s, s1);
      BlockedClassWhats(s, c, t, e, Taken(t0, hit));
      if Taken(t0, hit) > 0 && t.value {
        InductReaches(s1, c, t, w, luck);
        var r, env := Induct(s1, c, t, w, luck).value.sys,
                      Collected(ClassEnvironment(s.classes[c].config, w), t, Described(s.events), "UPSTART_EVENTS",
                        w.outer);
        CollectedAgrees(ClassEnvironment(s.classes[c].config, w), t, Described(s1.events), Described(s.events),
          "UPSTART_EVENTS", w.outer);
        if Nameless(s, e, c, w) {
          NotStarted(s, r, e, c, w);
        } else {
          InstancesKnown(s, c);
          TableFor(s, e, c, t, env, w);
          SummonedFrom(s, s1, r, c, InstanceName(s, e, c, w).value, Gathered(t), env, |s.events|);
          IsStarted(s, r, e, c, env, |s.events|, w);
        }
      } else {
        NotStarted(s, s1, e, c, w);
      }
    }
  }

  lemma BlockedClassWhats(s: Sys, c: ClassId, t: Cond, e: EventId, n: nat)
    requires LiveClass(s, c) && Block(SetClass(s, c, s.classes[c].(startOn := Some(t))), e, n).Ok?
    ensures var r := Block(SetClass(s, c, s.classes[c].(startOn := Some(t))), e, n).value;
            && r.jobs == s.jobs && |r.events| == |s.events|
            && forall x :: Described(r.events)(x) == Described(s.events)(x)
  {
  }

  /** The table that is collected is the one that is meant. */
  lemma TableFor(s: Sys, e: EventId, c: ClassId, t: Cond, table: Env, w: World)
    requires c < |s.classes| && e < |s.events| && Starts(s, e, c, w)
    requires t == Handle(s.classes[c].startOn.value, e, StartHit(s, e, w))
    requires table ==
             Collected(ClassEnvironment(s.classes[c].config, w), t, Described(s.events), "UPSTART_EVENTS", w.outer)
    ensures StartTable(s, e, c, table, w)
  {
    hide Collected, Supplies, Handle, Taken, Gathered, Sound, ClassEnvironment, Variables, EventNames, Below;
    ClassSupplies(s.classes[c].config, w);
    EventsSupply(ClassEnvironment(s.classes[c].config, w), Below(s.classes[c].config, w), t, Described(s.events),
      "UPSTART_EVENTS", w.outer);
  }

  lemma SummonedFrom(s: Sys, s1: Sys, r: Sys, c: ClassId, name: string, gathered: seq<EventId>, env: Env, x: EventId)
    requires c < |s.classes| && c < |s1.classes| && s1.jobs == s.jobs
    requires s1.classes[c].config == s.classes[c].config && s1.classes[c].instances == s.classes[c].instances
    requires forall j :: j in s.classes[c].instances ==> j < |s.jobs|
    requires Summoned(s1, r, c, name, gathered, env, x)
    ensures Summoned(s, r, c, name, gathered, env, x)
  {
    hide StartedBy;
    NamedAlike(s, s1, s.classes[c].instances, name);
  }

  lemma {:induction false} NamedAlike(s: Sys, r: Sys, js: seq<JobId>, name: string)
    requires forall j :: j in js ==> j < |s.jobs| && j < |r.jobs| && r.jobs[j].name == s.jobs[j].name
    ensures InstanceNamed(r, js, name) == InstanceNamed(s, js, name)
  {
    if js != [] {
      assert js[0] in js && forall j :: j in js[1..] ==> j in js;
      NamedAlike(s, r, js[1..], name);
    }
  }

  /** What has become of the class and its instances since the start condition was offered the event. */
  ghost predicate StartReached(s: Sys, r: Sys, e: EventId, c: ClassId, w: World)
    requires c < |s.classes| && e < |s.events|
  {
    && c < |r.classes| && r.classes[c].startOn == Outcome(s.classes[c].startOn, e, StartHit(s, e, w))
    && (forall j :: j in s.classes[c].instances && j < |s.jobs| ==>
          j < |r.jobs| && Chosen(s, e, c, j, s.jobs[j], r.jobs[j], w))
    && Enlarged(s, r, e, c, w)
  }

  lemma NotStarted(s: Sys, r: Sys, e: EventId, c: ClassId, w: World)
    requires c < |s.classes| && c < |r.classes| && e < |s.events| && r.jobs == s.jobs
    requires r.classes[c].instances == s.classes[c].instances && !Starts(s, e, c, w)
    requires r.classes[c].startOn == Outcome(s.classes[c].startOn, e, StartHit(s, e, w))
    ensures StartReached(s, r, e, c, w)
  {
    hide Outcome, Starts;
  }

  lemma IsStarted(s: Sys, r: Sys, e: EventId, c: ClassId, table: Env, x: EventId, w: World)
    requires c < |s.classes| && c < |r.classes| && e < |s.events| && Starts(s, e, c, w) && StartTable(s, e, c, table, w)
    requires Summoned(s, r, c, InstanceName(s, e, c, w).value, StartEvents(s, e, c, w), table, x)
    requires r.classes[c].startOn == Outcome(s.classes[c].startOn, e, StartHit(s, e, w))
    ensures StartReached(s, r, e, c, w)
  {
    hide Outcome, Starts, StartTable, StartEvents, StartedBy, InstanceName;
    var picked := Picked(s, e, c, w);
    if picked.Some? {
      assert StartsAs(s, e, c, s.jobs[picked.value], r.jobs[picked.value], table, x, w);
    } else {
      assert EntersAs(s, e, c, r.jobs[|s.jobs|], table, x, w);
    }
  }

  lemma HandledStartFresh(s: Sys, c: ClassId, e: EventId, hit: Hit)
    requires Inv(s) && c < |s.classes| && s.classes[c].startOn.Some?
    ensures Fresh(Handle(s.classes[c].startOn.value, e, hit)) == Fresh(s.classes[c].startOn.value)
  {
    hide Inv;
    InvParts(s);
    SoundStart(s, c);
    HandleKeeps(s.classes[c].startOn.value, e, hit);
  }

  // ---- One class ----

  /** Whether and how an induction goes is settled before the event is offered to anybody. */
  lemma NamelessStable(s: Sys, r: Sys, e: EventId, c: ClassId, w: World)
    requires Inv(s) && LiveEvent(s, e) && SameWhats(s, r) && c < |s.classes| && c < |r.classes|
    requires r.classes[c].startOn == s.classes[c].startOn && r.classes[c].config == s.classes[c].config
    ensures e < |r.events| && StartHit(r, e, w) == StartHit(s, e, w)
    ensures Nameless(r, e, c, w) <==> Nameless(s, e, c, w)
    ensures s.classes[c].startOn.Some? ==>
              && Sound(Handle(s.classes[c].startOn.value, e, StartHit(s, e, w)))
              && InstanceName(r, e, c, w) == InstanceName(s, e, c, w)
  {
    hide Inv, Handle, Held, Sound, Collected;
    if s.classes[c].startOn.Some? {
      var t0, hit := s.classes[c].startOn.value, StartHit(s, e, w);
      InvParts(s);
      SoundStart(s, c);
      HandleKeeps(t0, e, hit);
      var t := Handle(t0, e, hit);
      GatheredKnown(s, e, c, hit);
      CollectedAgrees(ClassEnvironment(s.classes[c].config, w), t, Described(r.events), Described(s.events),
        "UPSTART_EVENTS", w.outer);
    }
  }

  lemma GatheredKnown(s: Sys, e: EventId, c: ClassId, hit: Hit)
    requires Inv(s) && LiveEvent(s, e) && c < |s.classes| && s.classes[c].startOn.Some?
    requires Sound(Handle(s.classes[c].startOn.value, e, hit))
    ensures forall x :: x in Gathered(Handle(s.classes[c].startOn.value, e, hit)) ==> x < |s.events|
  {
    hide Inv;
    InvParts(s);
    SoundStart(s, c);
    var t0 := s.classes[c].startOn.value;
    var t := Handle(t0, e, hit);
    HandleKeeps(t0, e, hit);
    GatheredIsHeld(t);
    StartHeldLive(s, c);
    forall x | x in Gathered(t) ensures x < |s.events| {
      assert x in multiset(Held(t));
      assert x == e || x in multiset(Held(t0));
      assert x == e || x in Held(t0);
    }
  }

  /** Nor does what it supplies change. */
  lemma TableStable(s: Sys, r: Sys, e: EventId, c: ClassId, table: Env, w: World)
    requires Inv(s) && LiveEvent(s, e) && SameWhats(s, r) && c < |s.classes| && c < |r.classes| && e < |r.events|
    requires r.classes[c].startOn == s.classes[c].startOn && r.classes[c].config == s.classes[c].config
    requires Starts(s, e, c, w) && Starts(r, e, c, w) && InstanceName(r, e, c, w) == InstanceName(s, e, c, w)
    requires StartTable(r, e, c, table, w)
    ensures StartTable(s, e, c, table, w)
  {
    hide Inv, Handle, Taken, Sound, Gathered, Supplies, Variables, EventNames, Below, InstanceName;
    var t := Handle(s.classes[c].startOn.value, e, StartHit(s, e, w));
    assert StartHit(r, e, w) == StartHit(s, e, w);
    GatheredKnown(s, e, c, StartHit(s, e, w));
    NamesAgree(Gathered(t), Described(r.events), Described(s.events));
  }

  lemma StartsStable(s: Sys, r: Sys, e: EventId, c: ClassId, w: World)
    requires Inv(s) && LiveEvent(s, e) && SameWhats(s, r) && c < |s.classes| && c < |r.classes|
    requires r.classes[c].startOn == s.classes[c].startOn && r.classes[c].config == s.classes[c].config
    ensures e < |r.events| && StartHit(r, e, w) == StartHit(s, e, w) && (Starts(r, e, c, w) <==> Starts(s, e, c, w))
    ensures Starts(s, e, c, w) ==>
              && InstanceName(r, e, c, w) == InstanceName(s, e, c, w)
              && StartEvents(r, e, c, w) == StartEvents(s, e, c, w)
  {
    hide Inv, Handle, Taken, Sound, Gathered, Nameless, Expansion.Expand, Collected;
    NamelessStable(s, r, e, c, w);
  }

  lemma PickedStable(s: Sys, r: Sys, e: EventId, c: ClassId, w: World)
    requires c < |s.classes| && c < |r.classes| && e < |s.events| && e < |r.events| && r.classes[c] == s.classes[c]
    requires Starts(s, e, c, w) && Starts(r, e, c, w) && InstanceName(r, e, c, w) == InstanceName(s, e, c, w)
    requires forall k :: k in s.classes[c].instances ==>
               k < |s.jobs| && k < |r.jobs| && r.jobs[k].name == s.jobs[k].name
    ensures Picked(r, e, c, w) == Picked(s, e, c, w)
  {
    hide InstanceName, Sound, Handle;
    NamedAlike(s, r, s.classes[c].instances, InstanceName(s, e, c, w).value);
  }

  /** Offering to the start condition later comes to the same. */
  lemma ChosenStable(s: Sys, r: Sys, e: EventId, c: ClassId, j: JobId, mid: Job, after: Job, w: World)
    requires Inv(s) && LiveEvent(s, e) && SameWhats(s, r) && c < |s.classes| && c < |r.classes| && e < |r.events|
    requires r.classes[c] == s.classes[c]
    requires |s.jobs| <= |r.jobs|
    requires forall k :: k in s.classes[c].instances ==> k < |s.jobs| && r.jobs[k].name == s.jobs[k].name
    requires Chosen(r, e, c, j, mid, after, w)
    ensures Chosen(s, e, c, j, mid, after, w)
  {
    hide Inv, Starts, StartTable, StartEvents, InstanceName, StartedBy;
    StartsStable(s, r, e, c, w);
    if Starts(s, e, c, w) {
      PickedStable(s, r, e, c, w);
      if Picked(s, e, c, w) == Some(j) {
        var table: Env, x: EventId :| StartsAs(r, e, c, mid, after, table, x, w);
        TableStable(s, r, e, c, table, w);
        assert StartsAs(s, e, c, mid, after, table, x, w);
      }
    }
  }

  lemma EnlargedStable(s: Sys, s1: Sys, r: Sys, e: EventId, c: ClassId, w: World)
    requires Inv(s) && LiveEvent(s, e) && SameWhats(s, s1) && c < |s.classes| && c < |s1.classes| && e < |s1.events|
    requires s1.classes[c] == s.classes[c]
    requires |s.jobs| <= |s1.jobs|
    requires forall k :: k in s.classes[c].instances ==> k < |s.jobs| && s1.jobs[k].name == s.jobs[k].name
    requires c < |r.classes| && Enlarged(s1, r, e, c, w)
    ensures Enlarged(s, r, e, c, w)
  {
    hide Inv, Starts, StartTable, StartEvents, InstanceName;
    StartsStable(s, s1, e, c, w);
    if Starts(s, e, c, w) {
      PickedStable(s, s1, e, c, w);
      if Picked(s, e, c, w).None? {
        var after := r.jobs[r.classes[c].instances[|s.classes[c].instances|]];
        var table: Env, x: EventId :| EntersAs(s1, e, c, after, table, x, w);
        TableStable(s, s1, e, c, table, w);
        assert EntersAs(s, e, c, after, table, x, w);
      }
    }
  }

  /** The class is reached and all others are untouched; the loop goes on unless the class fails. */
  lemma ClassReached(s: Sys, e: EventId, c: ClassId, w: World, luck: Oracle) returns (i: Inducted)
    requires Inv(s) && NoneWaiting(s) && c in s.registered && LiveClass(s, c) && LiveEvent(s, e)
    ensures OfferStops(s, e, s.classes[c].instances, w, luck).Ok?
    ensures OfferStart(OfferStops(s, e, s.classes[c].instances, w, luck).value, e, c, w, luck) == Ok(i)
    ensures Inv(i.sys) && NoneWaiting(i.sys) && Follows(s, i.sys) && LiveEvent(i.sys, e)
    ensures Reached(s, i.sys, e, c, w) && (i.success <==> !Nameless(s, e, c, w))
    ensures |i.sys.classes| == |s.classes| && forall d :: 0 <= d < |s.classes| && d != c ==> Untouched(s, i.sys, d)
  {
    hide Inv, NoneWaiting, Follows, OfferStops, OfferStart, Nameless, Outcome, InstanceName, Sound, Handle,
      Taken, StartReached, Reached, StopsReached, OnlyClass;
    InstancesKnown(s, c);
    OfferStopsKeeps(s, e, s.classes[c].instances, w, luck);
    OfferStopsReaches(s, e, s.classes[c].instances, w, luck);
    var s1 := OfferStops(s, e, s.classes[c].instances, w, luck).value;
    FollowsLive(s, s1, e, []);
    FollowsQuiet(s, s1);
    InstancesLive(s1, c);
    OfferStartKeeps(s1, e, c, w, luck);
    OfferStartReaches(s1, e, c, w, luck);
    i := OfferStart(s1, e, c, w, luck).value;
    FollowsChain(s, s1, i.sys);
    FollowsLive(s, i.sys, e, []);
    NamelessStable(s, s1, e, c, w);
    JoinedReach(s, s1, i.sys, e, c, w);
    OthersUntouched(s, s1, i.sys, e, c, w);
  }

  lemma InstancesKnown(s: Sys, c: ClassId)
    requires Inv(s) && c in s.registered
    ensures LiveClass(s, c) && Distinct(s.classes[c].instances)
    ensures forall j :: j in s.classes[c].instances ==> LiveJob(s, j) && s.jobs[j].cls == c
  {
  }

  lemma JoinedReach(s: Sys, s1: Sys, r: Sys, e: EventId, c: ClassId, w: World)
    requires Inv(s) && c < |s.classes| && LiveEvent(s, e) && SameWhats(s, s1) && e < |s1.events|
    requires forall j :: j in s.classes[c].instances ==> LiveJob(s, j)
    requires c < |s1.classes| && StopsReached(s, s1, e, s.classes[c].instances, w) && StartReached(s1, r, e, c, w)
    ensures Reached(s, r, e, c, w)
  {
    hide Inv, Outcome, Stopped, Chosen, Enlarged, SameWhats;
    assert StartHit(s1, e, w) == StartHit(s, e, w) by { WhatAlike(s, s1, e); }
    forall j | j in s.classes[c].instances && j < |s.jobs|
      ensures j < |r.jobs| && InstanceReached(s, e, c, j, r.jobs[j], w)
    {
      ChosenStable(s, s1, e, c, j, s1.jobs[j], r.jobs[j], w);
    }
    EnlargedStable(s, s1, r, e, c, w);
  }

  lemma WhatAlike(s: Sys, r: Sys, e: EventId)
    requires SameWhats(s, r) && e < |s.events|
    ensures e < |r.events| && r.events[e].what == s.events[e].what
  {
  }

  lemma OthersUntouched(s: Sys, s1: Sys, r: Sys, e: EventId, c: ClassId, w: World)
    requires Inv(s) && c < |s.classes| && e < |s.events|
    requires StopsReached(s, s1, e, s.classes[c].instances, w) && OnlyClass(s1, r, c)
    ensures |r.classes| == |s.classes| && forall d :: 0 <= d < |s.classes| && d != c ==> Untouched(s, r, d)
  {
    hide Outcome, Trips;
    forall d | 0 <= d < |s.classes| && d != c ensures Untouched(s, r, d) {
      forall j | j in s.classes[d].instances && j < |s.jobs| ensures j < |r.jobs| && r.jobs[j] == s.jobs[j] {
        JobsOfClasses(s, c, d, j);
      }
    }
  }

  lemma JobsOfClasses(s: Sys, c: ClassId, d: ClassId, j: JobId)
    requires Inv(s) && c < |s.classes| && d < |s.classes| && c != d && j in s.classes[d].instances
    ensures j < |s.jobs| && s.jobs[j].cls == d && j !in s.classes[c].instances
  {
  }

  // ---- All classes ----

  /** The classes up to the first that fails are reached; all others are untouched. */
  ghost predicate Served(s: Sys, r: Sys, e: EventId, cs: seq<ClassId>, w: World)
    requires e < |s.events| && forall c :: c in cs ==> c < |s.classes|
  {
    && |r.classes| == |s.classes|
    && (forall i :: 0 <= i < |cs| && i <= FirstNameless(s, e, cs, w) ==> cs[i] in cs && Reached(s, r, e, cs[i], w))
    && (forall i :: FirstNameless(s, e, cs, w) < i < |cs| ==> cs[i] in cs && Untouched(s, r, cs[i]))
    && (forall d :: 0 <= d < |s.classes| && d !in cs ==> Untouched(s, r, d))
  }

  lemma {:induction false} FirstNamelessStable(s: Sys, r: Sys, e: EventId, cs: seq<ClassId>, w: World)
    requires Inv(s) && LiveEvent(s, e) && SameWhats(s, r)
    requires (forall c :: c in cs ==> c < |s.classes| && c < |r.classes|)
    requires forall c :: c in cs ==>
               r.classes[c].startOn == s.classes[c].startOn && r.classes[c].config == s.classes[c].config
    ensures e < |r.events| && FirstNameless(r, e, cs, w) == FirstNameless(s, e, cs, w)
    decreases |cs|
  {
    hide Inv, Nameless;
    if cs != [] {
      assert cs[0] in cs && forall c :: c in cs[1..] ==> c in cs;
      NamelessStable(s, r, e, cs[0], w);
      FirstNamelessStable(s, r, e, cs[1..], w);
    }
  }

  /** What happens after a class has been reached does not concern it. */
  lemma ReachedStays(s: Sys, s1: Sys, r: Sys, e: EventId, c: ClassId, w: World)
    requires c < |s.classes| && c < |s1.classes| && e < |s.events|
    requires Reached(s, s1, e, c, w) && Untouched(s1, r, c)
    ensures Reached(s, r, e, c, w)
  {
    hide Outcome, InstanceReached, Starts, InstanceName, EntersAs;
    var before, now := s.classes[c].instances, s1.classes[c].instances;
    assert now == before || (|now| == |before| + 1 && now[..|before|] == before);
    forall j | j in before && j < |s.jobs| ensures j < |r.jobs| && InstanceReached(s, e, c, j, r.jobs[j], w) {
      assert j in now;
    }
    if Starts(s, e, c, w) && Picked(s, e, c, w).None? { assert now[|before|] in now; }
  }

  /** A class that is reached later is reached as it was at first. */
  lemma ReachedLater(s: Sys, s1: Sys, r: Sys, e: EventId, c: ClassId, w: World)
    requires Inv(s) && LiveEvent(s, e) && SameWhats(s, s1) && c < |s.classes| && c < |s1.classes| && Untouched(s, s1, c)
    requires e < |s1.events| && Reached(s1, r, e, c, w) && |s.jobs| <= |s1.jobs|
    requires forall j :: j in s.classes[c].instances ==> j < |s.jobs|
    ensures Reached(s, r, e, c, w)
  {
    hide Inv, Outcome, InstanceReached, Enlarged, SameWhats;
    assert StartHit(s1, e, w) == StartHit(s, e, w) by { WhatAlike(s, s1, e); }
    forall j | j in s.classes[c].instances && j < |s.jobs|
      ensures j < |r.jobs| && InstanceReached(s, e, c, j, r.jobs[j], w)
    {
      InstanceLater(s, s1, e, c, j, r.jobs[j], w);
    }
    EnlargedStable(s, s1, r, e, c, w);
  }

  lemma InstanceLater(s: Sys, s1: Sys, e: EventId, c: ClassId, j: JobId, after: Job, w: World)
    requires Inv(s) && LiveEvent(s, e) && SameWhats(s, s1) && c < |s.classes| && c < |s1.classes| && Untouched(s, s1, c)
    requires e < |s1.events| && j in s.classes[c].instances && j < |s.jobs| <= |s1.jobs|
    requires forall k :: k in s.classes[c].instances ==> k < |s.jobs|
    requires InstanceReached(s1, e, c, j, after, w)
    ensures InstanceReached(s, e, c, j, after, w)
  {
    hide Inv, Stopped, Chosen, SameWhats;
    InstanceOf(s, c, j);
    var mid: Job :| Stopped(s1, e, j, mid, w) && Chosen(s1, e, c, j, mid, after, w);
    StoppedStable(s, s1, e, j, mid, w);
    ChosenStable(s, s1, e, c, j, mid, after, w);
  }

  lemma InstanceOf(s: Sys, c: ClassId, j: JobId)
    requires Inv(s) && c < |s.classes| && j in s.classes[c].instances
    ensures LiveJob(s, j) && s.jobs[j].cls == c
  {
  }

  /**
   event_pending_handle_jobs: the event reaches every class, start and stop conditions, up to
   and including the first whose instance name cannot be told, and none after it.
   */
  lemma {:induction false} OfferAllReaches(s: Sys, e: EventId, cs: seq<ClassId>, w: World, luck: Oracle)
    requires Inv(s) && NoneWaiting(s) && LiveEvent(s, e) && Distinct(cs)
    requires forall c :: c in cs ==> c in s.registered && c < |s.classes|
    ensures OfferAll(s, e, cs, w, luck).Ok? && Served(s, OfferAll(s, e, cs, w, luck).value, e, cs, w)
    decreases |cs|
  {
    hide Inv, NoneWaiting, Follows, OfferStops, OfferStart, Nameless, Reached, Untouched;
    if cs == [] {
      forall d | 0 <= d < |s.classes| ensures Untouched(s, s, d) { UntouchedSelf(s, d); }
    } else {
      var c := cs[0];
      assert c in cs && forall x :: x in cs[1..] ==> x in cs;
      InstancesKnown(s, c);
      var i := ClassReached(s, e, c, w, luck);
      assert Distinct(cs[1..]) && c !in cs[1..];
      FollowsTables(s, i.sys);
      FollowsQuiet(s, i.sys);
      if i.success {
        OfferAllReaches(i.sys, e, cs[1..], w, luck);
        var r := OfferAll(i.sys, e, cs[1..], w, luck).value;
        assert OfferAll(s, e, cs, w, luck) == Ok(r);
        TailServed(s, i.sys, r, e, cs, w);
      } else {
        assert OfferAll(s, e, cs, w, luck) == Ok(i.sys);
        assert FirstNameless(s, e, cs, w) == 0;
        assert forall k :: 0 < k < |cs| ==> cs[k] in cs[1..];
      }
    }
  }

  lemma UntouchedSelf(s: Sys, d: ClassId)
    requires d < |s.classes|
    ensures Untouched(s, s, d)
  {
  }

  lemma UntouchedChain(a: Sys, b: Sys, c: Sys, d: ClassId)
    requires d < |a.classes| && d < |b.classes| && Untouched(a, b, d) && Untouched(b, c, d)
    ensures Untouched(a, c, d)
  {
  }

  lemma TailServed(s: Sys, s1: Sys, r: Sys, e: EventId, cs: seq<ClassId>, w: World)
    requires Inv(s) && Inv(s1) && Follows(s, s1) && SameWhats(s, s1) && LiveEvent(s, e) && e < |s1.events| && cs != []
    requires |s1.classes| == |s.classes| && Distinct(cs)
    requires (forall c :: c in cs ==> c in s.registered && c < |s.classes|)
    requires cs[0] < |s.classes| && !Nameless(s, e, cs[0], w) && Reached(s, s1, e, cs[0], w)
    requires forall d :: 0 <= d < |s.classes| && d != cs[0] ==> Untouched(s, s1, d)
    requires (forall c :: c in cs[1..] ==> c < |s1.classes|) && Served(s1, r, e, cs[1..], w)
    ensures Served(s, r, e, cs, w)
  {
    hide Inv, Follows, SameWhats, Nameless, Reached, Untouched;
    var tail := cs[1..];
    assert cs[0] in cs && cs[0] !in tail;
    UntouchedTrees(s, s1, tail);
    FirstNamelessStable(s, s1, e, tail, w);
    assert FirstNameless(s, e, cs, w) == 1 + FirstNameless(s, e, tail, w);
    ReachedStays(s, s1, r, e, cs[0], w);
    forall i | 0 < i < |cs| && i <= FirstNameless(s, e, cs, w) ensures cs[i] in cs && Reached(s, r, e, cs[i], w) {
      assert tail[i - 1] == cs[i] && tail[i - 1] in tail;
      InstancesInRange(s, cs[i]);
      FollowsJobs(s, s1);
      ReachedLater(s, s1, r, e, cs[i], w);
    }
    forall i | FirstNameless(s, e, cs, w) < i < |cs| ensures cs[i] in cs && Untouched(s, r, cs[i]) {
      assert tail[i - 1] == cs[i] && tail[i - 1] in tail;
      UntouchedChain(s, s1, r, cs[i]);
    }
    forall d | 0 <= d < |s.classes| && d !in cs ensures Untouched(s, r, d) {
      UntouchedChain(s, s1, r, d);
    }
  }

  lemma JobInClass(s: Sys, j: JobId)
    requires Inv(s) && LiveJob(s, j)
    ensures s.jobs[j].cls < |s.classes| && j in s.classes[s.jobs[j].cls].instances
  {
  }

  lemma FollowsJobs(s: Sys, r: Sys)
    requires Follows(s, r)
    ensures |s.jobs| <= |r.jobs|
  {
  }

  lemma InstancesInRange(s: Sys, c: ClassId)
    requires Inv(s) && c < |s.classes|
    ensures forall j :: j in s.classes[c].instances ==> j < |s.jobs|
  {
    forall j | j in s.classes[c].instances ensures j < |s.jobs| { assert LiveJob(s, j); }
  }

  lemma UntouchedTrees(s: Sys, r: Sys, cs: seq<ClassId>)
    requires forall c :: c in cs ==> c < |s.classes| && Untouched(s, r, c)
    ensures forall c :: c in cs ==>
              c < |r.classes| && r.classes[c].startOn == s.classes[c].startOn
                && r.classes[c].config == s.classes[c].config
  {
  }

  // ---- The pending event ----

  /** The progress of the event does not matter. */
  lemma ServedFrom(s: Sys, s1: Sys, r: Sys, e: EventId, cs: seq<ClassId>, w: World)
    requires Inv(s) && LiveEvent(s, e) && s1.jobs == s.jobs && s1.classes == s.classes && SameWhats(s, s1)
    requires e < |s1.events|
    requires (forall c :: c in cs ==> c < |s.classes|) && Served(s1, r, e, cs, w)
    ensures Served(s, r, e, cs, w)
  {
    hide Inv, Nameless, Reached, Untouched;
    FirstNamelessStable(s, s1, e, cs, w);
    forall d | 0 <= d < |s.classes| ensures Untouched(s, s1, d) { UntouchedHere(s, s1, d); }
    forall i | 0 <= i < |cs| && i <= FirstNameless(s, e, cs, w) ensures cs[i] in cs && Reached(s, r, e, cs[i], w) {
      InstancesInRange(s, cs[i]);
      ReachedLater(s, s1, r, e, cs[i], w);
    }
    forall i | FirstNameless(s, e, cs, w) < i < |cs| ensures cs[i] in cs && Untouched(s, r, cs[i]) {
      UntouchedChain(s, s1, r, cs[i]);
    }
    forall d | 0 <= d < |s.classes| && d !in cs ensures Untouched(s, r, d) {
      UntouchedChain(s, s1, r, d);
    }
  }

  lemma UntouchedHere(s: Sys, r: Sys, d: ClassId)
    requires r.jobs == s.jobs && r.classes == s.classes && d < |s.classes|
    ensures Untouched(s, r, d)
  {
  }

  /** event_pending: whom the event reaches can be told from the state it is handled in. */
  lemma EventPendingReaches(s: Sys, e: EventId, w: World, luck: Oracle)
    requires Inv(s) && NoneWaiting(s) && LiveEvent(s, e) && s.events[e].progress.Pending?
    ensures forall c :: c in s.registered ==> c < |s.classes|
    ensures EventPending(s, e, w, luck).Ok? && Served(s, EventPending(s, e, w, luck).value, e, s.registered, w)
  {
    hide Inv, NoneWaiting, OfferAll, Served;
    var s1 := Noted(SetEvent(s, e, s.events[e].(progress := Handling)), Offered(e));
    RegistryKnown(s);
    ProgressedKeeps(s, s1, e);
    OfferAllReaches(s1, e, s.registered, w, luck);
    ServedFrom(s, s1, OfferAll(s1, e, s.registered, w, luck).value, e, s.registered, w);
  }

  lemma RegistryKnown(s: Sys)
    requires Inv(s)
    ensures Distinct(s.registered) && forall c :: c in s.registered ==> c < |s.classes|
  {
  }

  /** A class the event would leave as it is. */
  ghost predicate Indifferent(s: Sys, e: EventId, c: ClassId, w: World)
    requires c < |s.classes| && e < |s.events|
  {
    Reached(s, s, e, c, w)
  }

  /** The classes after the first that fails. */
  ghost predicate LaterIndifferent(s: Sys, e: EventId, w: World)
    requires e < |s.events| && forall c :: c in s.registered ==> c < |s.classes|
  {
    forall i :: FirstNameless(s, e, s.registered, w) < i < |s.registered| ==> 
      s.registered[i] in s.registered && Indifferent(s, e, s.registered[i], w)
  }

  /**
   The event reaches every registered class exactly when all classes after the first that
   fails would be left as they are; in particular when no class but the last fails.
   */
  lemma ReachesAllExactly(s: Sys, e: EventId, w: World, luck: Oracle)
    requires Inv(s) && NoneWaiting(s) && LiveEvent(s, e) && s.events[e].progress.Pending?
    ensures forall c :: c in s.registered ==> c < |s.classes|
    ensures EventPending(s, e, w, luck).Ok?
    ensures (forall c :: c in s.registered ==> Reached(s, EventPending(s, e, w, luck).value, e, c, w)) <==>
              LaterIndifferent(s, e, w)
    ensures FirstNameless(s, e, s.registered, w) >= |s.registered| - 1 ==> LaterIndifferent(s, e, w)
  {
    hide Inv, NoneWaiting, EventPending, Reached, Untouched, FirstNameless;
    RegistryKnown(s);
    EventPendingReaches(s, e, w, luck);
    var r, cs, k := EventPending(s, e, w, luck).value, s.registered, FirstNameless(s, e, s.registered, w);
    forall i | k < i < |cs| ensures Reached(s, r, e, cs[i], w) <==> Reached(s, s, e, cs[i], w) {
      InstancesInRange(s, cs[i]);
      UntouchedReached(s, r, e, cs[i], w);
    }
    if LaterIndifferent(s, e, w) {
      forall c | c in cs ensures Reached(s, r, e, c, w) {
        var i :| 0 <= i < |cs| && cs[i] == c;
        if i > k { assert Indifferent(s, e, cs[i], w); }
      }
    }
  }

  lemma UntouchedReached(s: Sys, r: Sys, e: EventId, c: ClassId, w: World)
    requires c < |s.classes| && e < |s.events| && Untouched(s, r, c) && forall j :: j in s.classes[c].instances ==>
               j < |s.jobs|
    ensures Reached(s, r, e, c, w) <==> Reached(s, s, e, c, w)
  {
    hide Outcome, InstanceName, Handle, Taken, Sound;
  }
}

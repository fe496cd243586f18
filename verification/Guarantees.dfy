/** What holds in every state that any run of the supervisor reaches, in the terms of the program. */
module Guarantees {
  import opened Wrappers
  import opened Condition
  import opened JobMachine
  import opened Supervisor
  import opened SupervisorSteps
  import opened Ledger
  import opened Lists
  import opened Invariant
  import opened CommandSteps
  import opened EventSteps
  import opened ConfigSteps
  import opened StartProgress
  import opened SupervisorRuns
  import opened Registry

  /** The state a run ends in. */
  function Final(inputs: seq<Input>, w: World): Sys {
    EveryRunSafe(inputs, w);
    Run(inputs, w).value
  }

  lemma FinalSafe(inputs: seq<Input>, w: World)
    ensures Run(inputs, w) == Ok(Final(inputs, w)) && Between(Final(inputs, w)) && Current(Final(inputs, w))
    ensures Trusty(Final(inputs, w), w)
    ensures Inv(Final(inputs, w)) && Base(Final(inputs, w))
  {
    hide Trusty, Current, Chronicle, NoneFinished, NoneWaiting, JobAtRest;
    EveryRunSafe(inputs, w);
  }

  lemma OneMoreInput(inputs: seq<Input>, input: Input, w: World)
    ensures Step(Final(inputs, w), input, w) == Ok(Final(inputs + [input], w))
    ensures Safe(Final(inputs, w), w) && Inv(Final(inputs + [input], w))
  {
    hide Step, Inv, Current, Trusty, Chronicle, NoneFinished, NoneWaiting;
    EveryRunSafe(inputs, w);
    EveryRunSafe(inputs + [input], w);
    assert (inputs + [input])[..|inputs|] == inputs;
  }

  // ---- References ----

  /**
   The leaves of all conditions that hold the event and the entries of all blocking lists
   that name it are what it counts.
   */
  lemma BlockersAreCounted(inputs: seq<Input>, w: World, e: EventId)
    ensures var s := Final(inputs, w);
            && (e < |s.events| ==> s.events[e].blockers == JobHolds(s.jobs, e) + ClassHolds(s.classes, e))
            && (e >= |s.events| ==> JobHolds(s.jobs, e) + ClassHolds(s.classes, e) == 0)
  {
    hide Final, Linked, Queued, RegisteredOnce, InstancesAgree, FilesAgree, SoundTrees, Between, Inv, Current, Trusty;
    FinalSafe(inputs, w);
    var s := Final(inputs, w);
    assert Blockers(s, e) == Holds(s, e);
  }

  /** Nothing knows an event that has been freed: no condition, no job that blocks it, no job that waits for it. */
  lemma FreedEventsAreForgotten(inputs: seq<Input>, w: World, e: EventId)
    requires e < |Final(inputs, w).events| && !Final(inputs, w).events[e].live
    ensures var s := Final(inputs, w);
            && (forall j :: 0 <= j < |s.jobs| ==> e !in HeldBy(s.jobs[j].stopOn) && e !in s.jobs[j].blocking)
            && (forall c :: 0 <= c < |s.classes| ==> e !in HeldBy(s.classes[c].startOn))
            && (forall j: JobId :: LiveJob(s, j) ==> s.jobs[j].blocker != Some(e))
            && e !in s.queue
  {
    hide Final, RegisteredOnce, InstancesAgree, FilesAgree, SoundTrees, Balanced, Between, Current, Trusty, Inv;
    FinalSafe(inputs, w);
    var s := Final(inputs, w);
    UnheldWhenFreed(s, e);
    forall j | 0 <= j < |s.jobs| ensures e !in HeldBy(s.jobs[j].stopOn) && e !in s.jobs[j].blocking {
      JobHoldsPart(s.jobs, j, e);
      assert multiset(HeldBy(s.jobs[j].stopOn))[e] == 0 && multiset(s.jobs[j].blocking)[e] == 0;
    }
    forall c | 0 <= c < |s.classes| ensures e !in HeldBy(s.classes[c].startOn) {
      ClassHoldsPart(s.classes, c, e);
      assert multiset(HeldBy(s.classes[c].startOn))[e] == 0;
    }
  }

  /**
   A job has a blocker exactly when it is starting or stopping; that event lists the job
   once, and no other event does.
   */
  lemma BlockedExactlyWhenStartingOrStopping(inputs: seq<Input>, w: World, j: JobId)
    requires LiveJob(Final(inputs, w), j)
    ensures var s := Final(inputs, w);
            && (s.jobs[j].blocker.Some? <==> s.jobs[j].state.Starting? || s.jobs[j].state.Stopping?)
            && (s.jobs[j].blocker.Some? ==> LiveEvent(s, s.jobs[j].blocker.value))
            && forall e :: 0 <= e < |s.events| ==>
                 multiset(s.events[e].blocking)[j] == if s.jobs[j].blocker == Some(e) then 1 else 0
  {
    hide Final, Queued, RegisteredOnce, InstancesAgree, FilesAgree, SoundTrees, Balanced, Between, Current, Trusty,
      Steady;
    FinalSafe(inputs, w);
    var s := Final(inputs, w);
    assert JobAtRest(s, j);
    forall e | 0 <= e < |s.events|
      ensures multiset(s.events[e].blocking)[j] == if s.jobs[j].blocker == Some(e) then 1 else 0
    {
      OnceInDistinct(s.events[e].blocking, j);
    }
  }

  // ---- Jobs ----

  /** Live pids, the kill timer and the goal agree with the state of every job at rest. */
  lemma ProcessesAndGoalsAgree(inputs: seq<Input>, w: World, j: JobId)
    requires LiveJob(Final(inputs, w), j)
    ensures var job := Final(inputs, w).jobs[j];
            && (forall p :: p in job.procs && p != MainProcess ==> job.state == HomeOf(p))
            && (MainProcess in job.procs ==>
                  job.state.Spawned? || job.state.PostStart? || job.state.Running? || job.state.PreStop?
                    || job.state.Stopping? || job.state.Killed?)
            && (job.killTimer ==> job.state.Killed? && MainProcess in job.procs)
            && !IsSpawningState(job.state) && !job.state.Waiting?
            && (job.goal.Respawning? ==> job.state.PostStart? || job.state.PreStop?)
            && (job.state.Running? ==> job.goal.Start?)
  {
    hide Final, Base, Current, Trusty, Chronicle, NoneFinished;
    FinalSafe(inputs, w);
    var s := Final(inputs, w);
    assert JobAtRest(s, j);
  }

  // ---- The registry ----

  /**
   One class a name is registered, and it is that of the best file unless it has instances;
   a name with a file has a class; classes with instances are registered; nothing that was
   freed is registered, has instances or belongs to a file.
   */
  lemma RegistryIsSafe(inputs: seq<Input>, w: World)
    ensures var s := Final(inputs, w);
            && (forall c, d :: c in s.registered && d in s.registered && c != d ==>
                  LiveClass(s, c) && LiveClass(s, d) && s.classes[c].config.name != s.classes[d].config.name)
            && (forall c :: 0 <= c < |s.classes| && s.classes[c].instances != [] ==> c in s.registered)
            && (forall c :: 0 <= c < |s.classes| && !s.classes[c].live ==>
                 c !in s.registered && s.classes[c].instances == [] && c !in s.files)
            && (forall j: JobId :: LiveJob(s, j) ==> LiveClass(s, s.jobs[j].cls) && s.jobs[j].cls in s.registered)
            && (forall c :: c in s.registered && LiveClass(s, c) && s.classes[c].instances == [] ==>
                  FirstOfName(s, s.files, c))
            && (forall c :: c in s.files && LiveClass(s, c) ==>
                  exists d ::
                    d in s.registered && d < |s.classes| && s.classes[d].config.name == s.classes[c].config.name)
  {
    hide Final, Balanced, Linked, Queued, SoundTrees, Between, Trusty, Inv, Current, Named, FirstOfName;
    FinalSafe(inputs, w);
    var s := Final(inputs, w);
    forall c | c in s.registered && LiveClass(s, c) && s.classes[c].instances == []
      ensures FirstOfName(s, s.files, c)
    {
      ReplaceableBest(s, c);
      NamedFirst(s, s.files, s.classes[c].config.name);
    }
    forall c | c in s.files && LiveClass(s, c)
      ensures exists d :: d in s.registered && d < |s.classes| && s.classes[d].config.name == s.classes[c].config.name
    {
      FileHasClass(s, c);
      NamedFound(s, s.registered, s.classes[c].config.name);
    }
    assert forall c :: c in s.registered ==> LiveClass(s, c);
    assert forall c :: c in s.files ==> LiveClass(s, c);
    forall j: JobId | LiveJob(s, j) ensures LiveClass(s, s.jobs[j].cls) && s.jobs[j].cls in s.registered {
      ClassOfJob(s, j);
      assert s.classes[s.jobs[j].cls].instances != [];
    }
  }

  lemma ReplaceableBest(s: Sys, c: ClassId)
    requires Inv(s) && Current(s) && c in s.registered && LiveClass(s, c) && s.classes[c].instances == []
    ensures Select(s, s.classes[c].config.name) == Some(c)
  {
    hide Base, Current;
    RegisteredHere(s, c);
    CurrentHere(s, s.classes[c].config.name);
  }

  lemma FileHasClass(s: Sys, c: ClassId)
    requires Inv(s) && Current(s) && c in s.files && LiveClass(s, c)
    ensures Registered(s, s.classes[c].config.name).Some?
  {
    hide Base, Current;
    CurrentHere(s, s.classes[c].config.name);
    HasBest(s, c);
  }

  // ---- Events ----

  /**
   An event is offered to the conditions once, as soon as it is not pending any
   more; it is freed at most once; a job is woken by it at most once; and it has
   at most one successor that tells of its failure, which has none.
   */
  lemma EventsHappenOnce(inputs: seq<Input>, w: World, e: EventId, j: JobId, f: EventId, g: EventId)
    requires e < |Final(inputs, w).events|
    ensures var s := Final(inputs, w);
            var times := multiset(s.history);
            && times[Offered(e)] == (if s.events[e].progress.Pending? then 0 else 1)
            && times[Freed(e)] == (if s.events[e].live then 0 else 1)
            && times[Woken(e, j)] <= 1
            && times[Succeeded(e, f)] <= 1
            && (Succeeded(e, f) in s.history && Succeeded(e, g) in s.history ==> f == g)
            && (Succeeded(e, f) in s.history ==> !NamesFailure(s.events[e].what.name) && Succeeded(f, g) !in s.history)
  {
    hide Final, Inv, Current, Trusty, NoneFinished, NoneWaiting;
    FinalSafe(inputs, w);
    var s := Final(inputs, w);
    OnceInDistinct(s.history, Offered(e));
    OnceInDistinct(s.history, Freed(e));
    OnceInDistinct(s.history, Woken(e, j));
    OnceInDistinct(s.history, Succeeded(e, f));
    if Succeeded(e, f) in s.history { SuccessorsEnd(s, e, f, g); }
  }

  /** Events are on the list in the order in which they were emitted, from emission until they are freed. */
  lemma EventsAreInOrder(inputs: seq<Input>, w: World, i: nat, j: nat)
    requires i < j < |Final(inputs, w).queue|
    ensures Final(inputs, w).queue[i] < Final(inputs, w).queue[j]
    ensures forall e: EventId :: LiveEvent(Final(inputs, w), e) <==> e in Final(inputs, w).queue
  {
    hide Final, Current, Trusty, NoneFinished, NoneWaiting, Chronicle;
    FinalSafe(inputs, w);
  }

  /** Whenever event_poll returns, every event on the list is being handled and somebody holds it. */
  lemma PollLeavesOnlyHeldEvents(inputs: seq<Input>, w: World, turns: nat, luck: Oracle)
    ensures var s := Final(inputs, w);
            var p := Poll(s, 0, false, turns, w, luck);
            && p.Ok?
            && (p.value.done ==> forall e :: e in p.value.sys.queue ==>
                  && e < |p.value.sys.events| && p.value.sys.events[e].progress.Handling?
                  && p.value.sys.events[e].blockers > 0 && Holds(p.value.sys, e) > 0)
  {
    hide Final, Inv, Current, Trusty, Chronicle, NoneFinished, NoneWaiting, Poll, Base, Orderly, Evolves, Holds;
    FinalSafe(inputs, w);
    var s := Final(inputs, w);
    PollKeeps(s, 0, false, turns, w, luck);
    var r := Poll(s, 0, false, turns, w, luck).value;
    if r.done {
      forall e | e in r.sys.queue
        ensures e < |r.sys.events| && r.sys.events[e].progress.Handling? && r.sys.events[e].blockers > 0
        ensures Holds(r.sys, e) > 0
      {
        var k :| 0 <= k < |r.sys.queue| && r.sys.queue[k] == e;
        CountedHere(r.sys, e);
      }
    }
  }

  lemma CountedHere(s: Sys, e: EventId)
    requires Inv(s)
    ensures Blockers(s, e) == Holds(s, e)
  {
  }

  /**
   If an event makes a start condition true, the events it then holds satisfy its formula,
   and they alone would have made it true.
   */
  lemma StartsAreJustified(inputs: seq<Input>, w: World, c: ClassId, e: EventId)
    requires c < |Final(inputs, w).classes| && Final(inputs, w).classes[c].startOn.Some?
    requires LiveEvent(Final(inputs, w), e)
    ensures var s := Final(inputs, w);
            var t := Handle(s.classes[c].startOn.value, e, HitBy(w, s.events[e].what, []));
            && Sound(t)
            && (t.value ==>
                 Eval(t, Among(Gathered(t), StartMatches(s, w)))
                   && HandleAll(Fresh(t), Gathered(t), StartMatches(s, w)).value)
            && (forall x :: x in Gathered(t) ==> LiveEvent(s, x))
  {
    hide Final, Base, Between, Current, Inv;
    FinalSafe(inputs, w);
    var s := Final(inputs, w);
    var t0, hit, m := s.classes[c].startOn.value, HitBy(w, s.events[e].what, []), StartMatches(s, w);
    var t := Handle(t0, e, hit);
    assert Earned(t0, m);
    HandleKeeps(t0, e, hit);
    EvolvesSelf(s);
    HandleEarned(s, s, e, c, w);
    if t.value {
      GatheredSatisfies(t, m);
      HistoryMeaning(t, Gathered(t), m);
    }
    GatheredIsHeld(t);
    StartHeldLive(s, c);
    forall x | x in Gathered(t) ensures LiveEvent(s, x) {
      assert x in multiset(Held(t));
      assert x == e || x in multiset(Held(t0));
    }
  }

  /** In whatever state a class is reloaded: with the same start condition and no instances, no progress is lost. */
  lemma ReloadsLoseNothing(inputs: seq<Input>, w: World, c: ClassId, config: Config, startOn: Cond, e: EventId,
    hit: Hit)
    requires Replaceable(Final(inputs, w), c) && Fresh(startOn) == Fresh(Final(inputs, w).classes[c].startOn.value)
    ensures var s := Final(inputs, w);
            var r, n, t := Final(inputs + [FileChanged(c, config, Some(startOn))], w), |s.classes|,
              s.classes[c].startOn.value;
            && !LiveClass(r, c) && LiveClass(r, n) && Registered(r, s.classes[c].config.name) == Some(n)
            && r.classes[n].startOn.Some?
            && Satisfied(r.classes[n].startOn.value) == Satisfied(t)
            && (forall x :: x in Held(r.classes[n].startOn.value) ==> LiveEvent(r, x))
            && Handle(r.classes[n].startOn.value, e, hit).value == Handle(t, e, hit).value
            && Taken(r.classes[n].startOn.value, hit) == Taken(t, hit)
  {
    hide Final, Inv, Between, Trusty, Current, Base, ReloadFile, Handle, Taken, Satisfied, Registered, Replaceable;
    FinalSafe(inputs, w);
    var s := Final(inputs, w);
    ReplaceableParts(s, c);
    ReplaceableIsBest(s, c);
    ReloadLosesNothing(s, c, config, startOn, w, e, hit);
    var more := inputs + [FileChanged(c, config, Some(startOn))];
    FinalSafe(more, w);
    assert more[..|more| - 1] == inputs;
    assert Run(more, w) == Step(s, FileChanged(c, config, Some(startOn)), w);
  }
}

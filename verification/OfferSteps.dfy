/** An event is offered to the stop and start conditions: references stay balanced, and nothing is freed. */
module OfferSteps {
  import opened Wrappers
  import opened Environ
  import opened Condition
  import opened ConditionEnviron
  import opened JobMachine
  import opened Supervisor
  import opened SupervisorSteps
  import opened Ledger
  import opened Invariant
  import opened Transitions
  import opened Arrival
  import opened ProcessSteps
  import opened CommandSteps
  import Expansion

  /** A job that is neither waiting nor running stays in its state with its processes. */
  predicate StaysPut(a: Job, b: Job) {
    a.state.Waiting? || a.state.Running? || (b.state == a.state && b.procs == a.procs && b.setup == a.setup)
  }

  /**
   Jobs keep their classes, and one whose class has a main process runs only if it ran
   before, with the same processes.
   */
  ghost predicate NoneRunsAnew(s: Sys, r: Sys) {
    && |s.jobs| <= |r.jobs|
    && (forall k: JobId :: k < |s.jobs| && LiveJob(r, k) ==> LiveJob(s, k) && r.jobs[k].cls == s.jobs[k].cls)
    && forall k: JobId ::
         && LiveJob(r, k) && LiveClass(r, r.jobs[k].cls) && r.jobs[k].state.Running?
         && MainProcess in r.classes[r.jobs[k].cls].config.processes ==>
           LiveJob(s, k) && s.jobs[k].state.Running? && r.jobs[k].procs == s.jobs[k].procs
  }

  lemma NoneRunsAnewChain(a: Sys, b: Sys, c: Sys)
    requires NoneRunsAnew(a, b) && NoneRunsAnew(b, c) && SameClasses(b, c)
    ensures NoneRunsAnew(a, c)
  {
    forall k: JobId |
      && LiveJob(c, k) && LiveClass(c, c.jobs[k].cls) && c.jobs[k].state.Running?
      && MainProcess in c.classes[c.jobs[k].cls].config.processes
      ensures LiveJob(a, k) && a.jobs[k].state.Running? && c.jobs[k].procs == a.jobs[k].procs
    {
      assert LiveJob(b, k) && LiveClass(b, b.jobs[k].cls);
    }
  }

  /** Classes keep their configuration, and none comes to life. */
  ghost predicate SameClasses(s: Sys, r: Sys) {
    && |r.classes| == |s.classes|
    && forall c :: 0 <= c < |s.classes| ==>
         r.classes[c].config == s.classes[c].config && (r.classes[c].live ==> s.classes[c].live)
  }

  /**
   Nothing is freed, no table loses an entry, no event is newly marked as failed, and only
   jobs at a natural rest state move.
   */
  ghost predicate Follows(s: Sys, r: Sys) {
    && EventsQuiet(s, r) && Marks(s, r, []) && r.registered == s.registered && r.files == s.files
    && |s.jobs| <= |r.jobs|
    && (forall k: JobId :: LiveJob(s, k) ==>
          LiveJob(r, k) && r.jobs[k].cls == s.jobs[k].cls && r.jobs[k].name == s.jobs[k].name
            && StaysPut(s.jobs[k], r.jobs[k]))
    && |r.classes| == |s.classes|
    && (forall c :: 0 <= c < |s.classes| ==>
         r.classes[c].live == s.classes[c].live && r.classes[c].config == s.classes[c].config)
    && NoneRunsAnew(s, r) && (Current(s) ==> Current(r))
  }

  lemma FollowsChain(a: Sys, b: Sys, c: Sys)
    requires Follows(a, b) && Follows(b, c)
    ensures Follows(a, c)
  {
    hide Current;
    NoneRunsAnewChain(a, b, c);
    forall k: JobId | LiveJob(a, k)
      ensures LiveJob(c, k) && c.jobs[k].cls == a.jobs[k].cls && c.jobs[k].name == a.jobs[k].name
      ensures StaysPut(a.jobs[k], c.jobs[k])
    {
      assert LiveJob(b, k);
    }
  }

  lemma TouchesFollows(s: Sys, r: Sys, j: JobId)
    requires Touches(s, r, j) && Marks(s, r, [])
    requires LiveJob(r, j) && LiveJob(s, j) && StaysPut(s.jobs[j], r.jobs[j])
    requires r.jobs[j].state.Running? ==> s.jobs[j].state.Running? && r.jobs[j].procs == s.jobs[j].procs
    ensures Follows(s, r)
  {
    hide Current;
    if Current(s) { TouchesCurrent(s, r, j); }
  }

  /** Only this job differs. */
  ghost predicate OnlyJob(s: Sys, r: Sys, j: JobId) {
    && j < |s.jobs| == |r.jobs| && r.classes == s.classes && r.jobs[j].cls == s.jobs[j].cls
    && r.jobs[j].name == s.jobs[j].name
    && forall k :: 0 <= k < |s.jobs| && k != j ==> r.jobs[k] == s.jobs[k]
  }

  lemma OnlyJobChain(a: Sys, b: Sys, c: Sys, j: JobId)
    requires OnlyJob(a, b, j) && OnlyJob(b, c, j)
    ensures OnlyJob(a, c, j)
  {
  }

  lemma TouchesOnly(s: Sys, r: Sys, j: JobId)
    requires Touches(s, r, j) && LiveJob(r, j)
    ensures OnlyJob(s, r, j) && r.jobs[j].stopOn == s.jobs[j].stopOn
  {
  }

  // ---- References taken and given back ----

  /** One job holds more or less than before, and the counts have followed. */
  lemma JobRebalanced(s: Sys, j: JobId, job: Job, r: Sys)
    requires Balanced(s) && j < |s.jobs| && FreedUnknown(r) && r.jobs == s.jobs[j := job] && r.classes == s.classes
    requires forall e: EventId :: Blockers(r, e) + JobHold(s.jobs[j], e) == Blockers(s, e) + JobHold(job, e)
    ensures Balanced(r)
  {
    hide FreedUnknown, JobHold;
    forall e: EventId ensures Blockers(r, e) == Holds(r, e) {
      JobHoldsUpdate(s.jobs, j, job, e);
      assert Blockers(s, e) == Holds(s, e);
      assert Blockers(r, e) + JobHold(s.jobs[j], e) == Blockers(s, e) + JobHold(job, e);
    }
  }

  lemma ClassRebalanced(s: Sys, c: ClassId, cls: JobClass, r: Sys)
    requires Balanced(s) && c < |s.classes| && FreedUnknown(r) && r.classes == s.classes[c := cls] && r.jobs == s.jobs
    requires forall e: EventId :: Blockers(r, e) + ClassHold(s.classes[c], e) == Blockers(s, e) + ClassHold(cls, e)
    ensures Balanced(r)
  {
    hide FreedUnknown, ClassHold;
    forall e: EventId ensures Blockers(r, e) == Holds(r, e) {
      ClassHoldsUpdate(s.classes, c, cls, e);
      assert Blockers(s, e) == Holds(s, e);
      assert Blockers(r, e) + ClassHold(s.classes[c], e) == Blockers(s, e) + ClassHold(cls, e);
    }
  }

  /** Only the stop condition and the blocking list of one job and the blocker counts differ. */
  ghost predicate JobHoldsOnly(s: Sys, r: Sys, j: JobId) {
    && j < |s.jobs| && |r.jobs| == |s.jobs| && |r.events| == |s.events|
    && r == s.(jobs := s.jobs[j := s.jobs[j].(stopOn := r.jobs[j].stopOn, blocking := r.jobs[j].blocking)],
       events := r.events)
    && forall e :: 0 <= e < |s.events| ==> r.events[e] == s.events[e].(blockers := r.events[e].blockers)
  }

  /** Only the start condition of one class and the blocker counts differ. */
  ghost predicate ClassHoldsOnly(s: Sys, r: Sys, c: ClassId) {
    && c < |s.classes| && |r.classes| == |s.classes| && |r.events| == |s.events|
    && r == s.(classes := s.classes[c := s.classes[c].(startOn := r.classes[c].startOn)], events := r.events)
    && forall e :: 0 <= e < |s.events| ==> r.events[e] == s.events[e].(blockers := r.events[e].blockers)
  }

  lemma JobHoldsKept(s: Sys, r: Sys, j: JobId)
    requires Inv(s) && JobHoldsOnly(s, r, j) && Balanced(r)
    requires r.jobs[j].stopOn.Some? ==> Sound(r.jobs[j].stopOn.value)
    ensures Inv(r) && Follows(s, r) && (NoneWaiting(s) ==> NoneWaiting(r))
  {
    hide Balanced, Linked, Queued, RegisteredOnce, InstancesAgree, FilesAgree, Current;
    FrameKept(s, r);
    forall k: JobId ensures JobAtRest(r, k) {
      assert JobAtRest(s, k);
    }
    if Current(s) { CurrentTables(s, r); }
  }

  lemma ClassHoldsKept(s: Sys, r: Sys, c: ClassId)
    requires Inv(s) && ClassHoldsOnly(s, r, c) && Balanced(r)
    requires r.classes[c].startOn.Some? ==> Sound(r.classes[c].startOn.value)
    ensures Inv(r) && Follows(s, r) && (NoneWaiting(s) ==> NoneWaiting(r))
  {
    hide Balanced, Linked, Queued, RegisteredOnce, InstancesAgree, FilesAgree, Current;
    FrameKept(s, r);
    forall k: JobId ensures JobAtRest(r, k) {
      assert JobAtRest(s, k);
    }
    if Current(s) { CurrentTables(s, r); }
  }

  lemma SoundStop(s: Sys, j: JobId)
    requires SoundTrees(s) && j < |s.jobs| && s.jobs[j].stopOn.Some?
    ensures Sound(s.jobs[j].stopOn.value)
  {
  }

  lemma SoundStart(s: Sys, c: ClassId)
    requires SoundTrees(s) && c < |s.classes| && s.classes[c].startOn.Some?
    ensures Sound(s.classes[c].startOn.value)
  {
  }

  /** event_operator_handle on a stop condition */
  lemma HandleStopKeeps(s: Sys, e: EventId, j: JobId, hit: Hit)
    requires Inv(s) && LiveJob(s, j) && LiveEvent(s, e) && s.jobs[j].stopOn.Some?
    ensures var t0 := s.jobs[j].stopOn.value;
            var t := Handle(t0, e, hit);
            var r := Block(SetJob(s, j, s.jobs[j].(stopOn := Some(t))), e, Taken(t0, hit));
            && r.Ok? && Inv(r.value) && Follows(s, r.value) && (NoneWaiting(s) ==> NoneWaiting(r.value))
            && LiveJob(r.value, j) && r.value.jobs[j] == s.jobs[j].(stopOn := Some(t)) && Sound(t)
            && r.value.classes == s.classes
            && OnlyJob(s, r.value, j)
  {
    hide Inv, Follows, Holds, NoneWaiting, SoundTrees, Balanced, Handle, Taken, Sound, Held;
    InvParts(s);
    BalancedFreed(s);
    var t0 := s.jobs[j].stopOn.value;
    SoundStop(s, j);
    HandleKeeps(t0, e, hit);
    var t := Handle(t0, e, hit);
    var job := s.jobs[j].(stopOn := Some(t));
    var r := Block(SetJob(s, j, job), e, Taken(t0, hit)).value;
    JobRebalanced(s, j, job, r);
    JobHoldsKept(s, r, j);
  }

  lemma HandleStartKeeps(s: Sys, e: EventId, c: ClassId, hit: Hit)
    requires Inv(s) && LiveClass(s, c) && LiveEvent(s, e) && s.classes[c].startOn.Some?
    ensures var t0 := s.classes[c].startOn.value;
            var t := Handle(t0, e, hit);
            var r := Block(SetClass(s, c, s.classes[c].(startOn := Some(t))), e, Taken(t0, hit));
            && r.Ok? && Inv(r.value) && Follows(s, r.value) && (NoneWaiting(s) ==> NoneWaiting(r.value))
            && LiveClass(r.value, c) && r.value.classes == s.classes[c := s.classes[c].(startOn := Some(t))] && Sound(t)
  {
    hide Inv, Follows, Holds, NoneWaiting, SoundTrees, Balanced, Handle, Taken, Sound, Held;
    InvParts(s);
    BalancedFreed(s);
    var t0 := s.classes[c].startOn.value;
    SoundStart(s, c);
    HandleKeeps(t0, e, hit);
    var t := Handle(t0, e, hit);
    var cls := s.classes[c].(startOn := Some(t));
    var r := Block(SetClass(s, c, cls), e, Taken(t0, hit)).value;
    ClassRebalanced(s, c, cls, r);
    ClassHoldsKept(s, r, c);
  }

  /** event_operator_events */
  lemma BlockGatheredKeeps(s: Sys, j: JobId, t: Cond)
    requires Inv(s) && LiveJob(s, j) && Sound(t) && forall e :: e in Gathered(t) ==> LiveEvent(s, e)
    ensures BlockGathered(s, j, t).Ok?
    ensures var r := BlockGathered(s, j, t).value;
            && Inv(r) && Follows(s, r) && (NoneWaiting(s) ==> NoneWaiting(r))
            && LiveJob(r, j) && r.jobs[j] == s.jobs[j].(blocking := s.jobs[j].blocking + Gathered(t))
            && r.classes == s.classes && |r.events| == |s.events|
            && (forall k :: 0 <= k < |s.jobs| && k != j ==> r.jobs[k] == s.jobs[k]) && |r.jobs| == |s.jobs|
            && OnlyJob(s, r, j)
  {
    hide Linked, Queued, RegisteredOnce, InstancesAgree, FilesAgree, Follows, JobAtRest, Holds, BlockAll;
    var job := s.jobs[j].(blocking := s.jobs[j].blocking + Gathered(t));
    var s1 := SetJob(s, j, job);
    BlockAllOk(s1, Gathered(t));
    var r := BlockAll(s1, Gathered(t)).value;
    forall e: EventId ensures Blockers(r, e) + JobHold(s.jobs[j], e) == Blockers(s, e) + JobHold(job, e) {
      assert Blockers(r, e) == Blockers(s1, e) + multiset(Gathered(t))[e];
      assert Blockers(s1, e) == Blockers(s, e);
    }
    JobRebalanced(s, j, job, r);
    JobHoldsKept(s, r, j);
  }

  lemma ResetStopKeeps(s: Sys, j: JobId)
    requires Inv(s) && LiveJob(s, j) && s.jobs[j].stopOn.Some?
    ensures ResetStop(s, j).Ok?
    ensures var r := ResetStop(s, j).value;
            && Inv(r) && Follows(s, r) && (NoneWaiting(s) ==> NoneWaiting(r)) && r.classes == s.classes
            && OnlyJob(s, r, j) && r.jobs[j] == s.jobs[j].(stopOn := Some(Fresh(s.jobs[j].stopOn.value)))
  {
    hide Linked, Queued, RegisteredOnce, InstancesAgree, FilesAgree, Follows, JobAtRest, Holds, UnblockAll;
    var t := s.jobs[j].stopOn.value;
    ResetForgets(t);
    var job := s.jobs[j].(stopOn := Some(Reset(t)));
    var s1 := SetJob(s, j, job);
    StopHoldsCovered(s, j);
    forall e | e in Held(t) ensures multiset(Held(t))[e] <= Blockers(s1, e) {
      assert e in HeldBy(s.jobs[j].stopOn);
      assert Blockers(s1, e) == Blockers(s, e);
    }
    UnblockAllOk(s1, Held(t));
    var r := UnblockAll(s1, Held(t)).value;
    forall e: EventId ensures Blockers(r, e) + JobHold(s.jobs[j], e) == Blockers(s, e) + JobHold(job, e) {
      assert Blockers(r, e) + multiset(Held(t))[e] == Blockers(s1, e);
      assert Blockers(s1, e) == Blockers(s, e);
    }
    JobRebalanced(s, j, job, r);
    JobHoldsKept(s, r, j);
  }

  lemma ResetStartKeeps(s: Sys, c: ClassId)
    requires Inv(s) && LiveClass(s, c)
    ensures ResetStart(s, c).Ok?
    ensures var r := ResetStart(s, c).value;
            && Inv(r) && Follows(s, r) && (NoneWaiting(s) ==> NoneWaiting(r)) && ClassHoldsOnly(s, r, c)
            && (s.classes[c].startOn.Some? ==> r.classes[c].startOn == Some(Fresh(s.classes[c].startOn.value)))
            && (s.classes[c].startOn.None? ==> r.classes[c].startOn.None?)
  {
    hide Linked, Queued, RegisteredOnce, InstancesAgree, FilesAgree, Follows, JobAtRest, Holds, UnblockAll;
    if s.classes[c].startOn.None? {
      assert ClassHoldsOnly(s, s, c);
      ClassHoldsKept(s, s, c);
    } else {
      var t := s.classes[c].startOn.value;
      ResetForgets(t);
      var cls := s.classes[c].(startOn := Some(Reset(t)));
      var s1 := SetClass(s, c, cls);
      StartHoldsCovered(s, c);
      forall e | e in Held(t) ensures multiset(Held(t))[e] <= Blockers(s1, e) {
        assert e in HeldBy(s.classes[c].startOn);
        assert Blockers(s1, e) == Blockers(s, e);
      }
      UnblockAllOk(s1, Held(t));
      var r := UnblockAll(s1, Held(t)).value;
      forall e: EventId ensures Blockers(r, e) + ClassHold(s.classes[c], e) == Blockers(s, e) + ClassHold(cls, e) {
        assert Blockers(r, e) + multiset(Held(t))[e] == Blockers(s1, e);
        assert Blockers(s1, e) == Blockers(s, e);
      }
      ClassRebalanced(s, c, cls, r);
      ClassHoldsKept(s, r, c);
    }
  }

  /** The events gathered from a condition are alive, as the condition holds them. */
  lemma GatheredLive(s: Sys, t: Cond)
    requires Balanced(s) && Sound(t)
    requires (exists j: JobId :: j < |s.jobs| && s.jobs[j].stopOn == Some(t))
             || (exists c: ClassId :: c < |s.classes| && s.classes[c].startOn == Some(t))
    ensures forall e :: e in Gathered(t) ==> LiveEvent(s, e)
  {
    hide Balanced, FreedUnknown;
    GatheredIsHeld(t);
    forall e | e in Gathered(t) ensures LiveEvent(s, e) {
      assert multiset(Held(t))[e] > 0;
      if j: JobId :| j < |s.jobs| && s.jobs[j].stopOn == Some(t) {
        JobHoldsPart(s.jobs, j, e);
      } else {
        var c: ClassId :| c < |s.classes| && s.classes[c].startOn == Some(t);
        ClassHoldsPart(s.classes, c, e);
      }
      HeldIsLive(s, e);
    }
  }

  // ---- The stop condition of a job ----

  /** The step went well and nothing was freed. */
  ghost predicate Smooth(s: Sys, r: Result<Sys, Trap>) {
    r.Ok? && Inv(r.value) && NoneWaiting(r.value) && Follows(s, r.value)
  }

  lemma SmoothChain(a: Sys, b: Sys, r: Result<Sys, Trap>)
    requires Follows(a, b) && Smooth(b, r)
    ensures Smooth(a, r)
  {
    FollowsChain(a, b, r.value);
  }

  lemma InvParts(s: Sys)
    requires Inv(s)
    ensures Balanced(s) && SoundTrees(s)
  {
  }

  lemma StopByConditionKeeps(s: Sys, j: JobId, t: Cond, w: World, luck: Oracle)
    requires Inv(s) && NoneWaiting(s) && LiveJob(s, j) && s.jobs[j].stopOn == Some(t)
    ensures Smooth(s, StopByCondition(s, j, t, w, luck)) && StopByCondition(s, j, t, w, luck).value.classes == s.classes
    ensures var r := StopByCondition(s, j, t, w, luck).value;
            OnlyJob(s, r, j) && r.jobs[j].stopOn == Some(Fresh(t)) && r.jobs[j].goal.Stop?
  {
    hide Inv, Follows, JobFinished, BlockGathered, ChangeGoal, ResetStop, Touches, Collected, SoundTrees, Balanced,
      Gathered, Sound,
      OnlyJob;
    InvParts(s);
    SoundStop(s, j);
    var stopping := !s.jobs[j].goal.Stop?;
    var stopEnv := Some(Collected([], t, Described(s.events), "UPSTART_STOP_EVENTS", w.outer));
    var s1 := s;
    SelfTouches(s, j);
    FollowsSelf(s);
    if stopping {
      FinishFollows(s, j, s.jobs[j].(stopEnv := stopEnv));
      s1 := JobFinished(SetJob(s, j, s.jobs[j].(stopEnv := stopEnv)), j, false).value;
    }
    InvParts(s1);
    TouchesOnly(s, s1, j);
    GatheredLive(s1, t);
    BlockGatheredKeeps(s1, j, t);
    var s2 := BlockGathered(s1, j, t).value;
    FollowsChain(s, s1, s2);
    OnlyJobChain(s, s1, s2, j);
    var s3 := s2;
    SelfTouches(s2, j);
    FollowsSelf(s2);
    if stopping {
      GoalFollows(s2, j, Stop, w, luck);
      s3 := ChangeGoal(s2, j, Stop, w, luck).value;
    }
    FollowsChain(s, s2, s3);
    TouchesOnly(s2, s3, j);
    OnlyJobChain(s, s2, s3, j);
    ResetStopKeeps(s3, j);
    OnlyJobChain(s, s3, ResetStop(s3, j).value, j);
    WaitingBack(s, s1, s2, s3, j);
    SmoothChain(s, s3, ResetStop(s3, j));
  }

  /** job_finished, after a change to the job's environments. */
  lemma FinishFollows(s: Sys, j: JobId, job: Job)
    requires Inv(s) && LiveJob(s, j) && SameLinks(s.jobs[j], job)
    requires SameMotion(s.jobs[j], job) && job.failed == s.jobs[j].failed
    requires job.failedProcess == s.jobs[j].failedProcess
    ensures JobFinished(SetJob(s, j, job), j, false).Ok?
    ensures var r := JobFinished(SetJob(s, j, job), j, false).value;
            && Inv(r) && Follows(s, r) && Touches(s, r, j) && LiveJob(r, j) && r.jobs[j] == job.(blocking := [])
            && r.classes == s.classes && |r.events| == |s.events|
  {
    hide Inv, Follows, Touches, JobFinished;
    FinishQuietly(s, j, job);
    var r := JobFinished(SetJob(s, j, job), j, false).value;
    TouchesFollows(s, r, j);
    StopOnKept(s, r, j);
  }

  /** job_change_goal */
  lemma GoalFollows(s: Sys, j: JobId, goal: Goal, w: World, luck: Oracle)
    requires Inv(s) && LiveJob(s, j) && !goal.Respawning?
    ensures ChangeGoal(s, j, goal, w, luck).Ok?
    ensures var r := ChangeGoal(s, j, goal, w, luck).value;
            && Inv(r) && Follows(s, r) && Touches(s, r, j) && LiveJob(r, j) && r.jobs[j].stopOn == s.jobs[j].stopOn
            && r.classes == s.classes
            && r.jobs[j].goal == goal
            && (goal.Start? || !s.jobs[j].state.Waiting? ==> !r.jobs[j].state.Waiting?)
  {
    hide Inv, Follows, Touches, ChangeGoal;
    GoalKeeps(s, j, goal, w, luck);
    GoalExactly(s, j, goal, w, luck);
    var r := ChangeGoal(s, j, goal, w, luck).value;
    TouchesFollows(s, r, j);
    StopOnKept(s, r, j);
  }

  lemma StopOnKept(s: Sys, r: Sys, j: JobId)
    requires Touches(s, r, j) && LiveJob(r, j)
    ensures r.jobs[j].stopOn == s.jobs[j].stopOn && r.classes == s.classes
  {
  }

  lemma WaitingBack(s: Sys, s1: Sys, s2: Sys, s3: Sys, j: JobId)
    requires NoneWaiting(s) && Touches(s, s1, j) && Touches(s2, s3, j)
    requires |s2.jobs| == |s1.jobs| && forall k :: 0 <= k < |s1.jobs| && k != j ==> s2.jobs[k] == s1.jobs[k]
    requires !s3.jobs[j].state.Waiting?
    ensures NoneWaiting(s3)
  {
    forall k: JobId | LiveJob(s3, k) ensures !s3.jobs[k].state.Waiting? {
      if k != j { assert LiveJob(s, k); }
    }
  }

  lemma OfferStopKeeps(s: Sys, e: EventId, j: JobId, w: World, luck: Oracle)
    requires Inv(s) && NoneWaiting(s) && LiveJob(s, j) && LiveEvent(s, e)
    ensures Smooth(s, OfferStop(s, e, j, w, luck)) && OfferStop(s, e, j, w, luck).value.classes == s.classes
  {
    hide Inv, Follows, Block, StopByCondition, Handle, Taken, Sound;
    if s.jobs[j].stopOn.Some? {
      var t0 := s.jobs[j].stopOn.value;
      var hit := HitBy(w, s.events[e].what, s.jobs[j].env);
      HandleStopKeeps(s, e, j, hit);
      var t := Handle(t0, e, hit);
      var s1 := Block(SetJob(s, j, s.jobs[j].(stopOn := Some(t))), e, Taken(t0, hit)).value;
      if Taken(t0, hit) > 0 && t.value {
        StopByConditionKeeps(s1, j, t, w, luck);
        SmoothChain(s, s1, StopByCondition(s1, j, t, w, luck));
      }
    } else {
      FollowsSelf(s);
    }
  }

  lemma FollowsSelf(s: Sys)
    ensures Follows(s, s)
  {
  }

  lemma {:induction false} OfferStopsKeeps(s: Sys, e: EventId, js: seq<JobId>, w: World, luck: Oracle)
    requires Inv(s) && NoneWaiting(s) && LiveEvent(s, e) && forall j :: j in js ==> LiveJob(s, j)
    ensures Smooth(s, OfferStops(s, e, js, w, luck)) && OfferStops(s, e, js, w, luck).value.classes == s.classes
    decreases |js|
  {
    hide Inv, Follows, OfferStop, NoneWaiting;
    if js == [] {
      FollowsSelf(s);
    } else {
      OfferStopKeeps(s, e, js[0], w, luck);
      var s1 := OfferStop(s, e, js[0], w, luck).value;
      FollowsLive(s, s1, e, js[1..]);
      OfferStopsKeeps(s1, e, js[1..], w, luck);
      SmoothChain(s, s1, OfferStops(s1, e, js[1..], w, luck));
    }
  }

  lemma FollowsLive(s: Sys, r: Sys, e: EventId, js: seq<JobId>)
    requires Follows(s, r) && LiveEvent(s, e) && forall j :: j in js ==> LiveJob(s, j)
    ensures LiveEvent(r, e) && forall j :: j in js ==> LiveJob(r, j)
  {
  }

  // ---- The start condition of a class ----

  lemma StartByConditionKeeps(s: Sys, c: ClassId, j: JobId, t: Cond, env: Env, w: World, luck: Oracle)
    requires Inv(s) && LiveJob(s, j) && LiveClass(s, c) && s.classes[c].startOn == Some(t)
    requires forall k: JobId :: LiveJob(s, k) && k != j ==> !s.jobs[k].state.Waiting?
    ensures Smooth(s, StartByCondition(s, c, j, t, env, w, luck))
    ensures StartByCondition(s, c, j, t, env, w, luck).value.classes == s.classes
    ensures var r := StartByCondition(s, c, j, t, env, w, luck).value;
            OnlyJob(s, r, j) && r.jobs[j].stopOn == s.jobs[j].stopOn && r.jobs[j].goal.Start?
  {
    hide Inv, Follows, JobFinished, BlockGathered, ChangeGoal, Touches, SoundTrees, Balanced, Gathered, Sound,
      NoneWaiting, OnlyJob;
    InvParts(s);
    SoundStart(s, c);
    var starting := !s.jobs[j].goal.Start?;
    StartedNotWaiting(s, j);
    var s1 := MaybeFinished(s, j, s.jobs[j].(startEnv := Some(env)), starting);
    InvParts(s1);
    GatheredLive(s1, t);
    var s2 := MaybeBlocked(s1, j, t, s.classes[c].config.task || !s1.jobs[j].state.Running?);
    FollowsChain(s, s1, s2);
    OnlyJobChain(s, s1, s2, j);
    var s3 := MaybeGoal(s2, j, Start, starting, w, luck);
    FollowsChain(s, s2, s3);
    OnlyJobChain(s, s2, s3, j);
    OthersWaitingBack(s, s1, s2, s3, j);
  }

  lemma MaybeFinished(s: Sys, j: JobId, job: Job, really: bool) returns (r: Sys)
    requires Inv(s) && LiveJob(s, j) && SameLinks(s.jobs[j], job)
    requires SameMotion(s.jobs[j], job) && job.failed == s.jobs[j].failed
    requires job.failedProcess == s.jobs[j].failedProcess
    ensures (if really then JobFinished(SetJob(s, j, job), j, false) else Ok(s)) == Ok(r)
    ensures Inv(r) && Follows(s, r) && Touches(s, r, j) && LiveJob(r, j) && r.classes == s.classes
    ensures r.jobs[j] == if really then job.(blocking := []) else s.jobs[j]
    ensures OnlyJob(s, r, j) && |r.events| == |s.events|
  {
    hide Inv, Follows, Touches, JobFinished;
    r := s;
    if really {
      FinishFollows(s, j, job);
      r := JobFinished(SetJob(s, j, job), j, false).value;
    } else {
      SelfTouches(s, j);
      FollowsSelf(s);
    }
    TouchesOnly(s, r, j);
  }

  lemma MaybeBlocked(s: Sys, j: JobId, t: Cond, really: bool) returns (r: Sys)
    requires Inv(s) && LiveJob(s, j) && Sound(t) && forall e :: e in Gathered(t) ==> LiveEvent(s, e)
    ensures (if really then BlockGathered(s, j, t) else Ok(s)) == Ok(r)
    ensures Inv(r) && Follows(s, r) && LiveJob(r, j) && r.classes == s.classes && OnlyJob(s, r, j)
    ensures r.jobs[j] == if really then s.jobs[j].(blocking := s.jobs[j].blocking + Gathered(t)) else s.jobs[j]
    ensures |r.events| == |s.events|
    ensures |r.jobs| == |s.jobs| && forall k :: 0 <= k < |s.jobs| && k != j ==> r.jobs[k] == s.jobs[k]
  {
    hide Inv, Follows, BlockGathered;
    r := s;
    if really {
      BlockGatheredKeeps(s, j, t);
      r := BlockGathered(s, j, t).value;
    } else {
      FollowsSelf(s);
    }
  }

  lemma MaybeGoal(s: Sys, j: JobId, goal: Goal, really: bool, w: World, luck: Oracle) returns (r: Sys)
    requires Inv(s) && LiveJob(s, j) && !goal.Respawning?
    ensures (if really then ChangeGoal(s, j, goal, w, luck) else Ok(s)) == Ok(r)
    ensures Inv(r) && Follows(s, r) && Touches(s, r, j) && LiveJob(r, j) && r.classes == s.classes
    ensures OnlyJob(s, r, j) && r.jobs[j].stopOn == s.jobs[j].stopOn
    ensures r.jobs[j].goal == if really then goal else s.jobs[j].goal
    ensures (really && goal.Start?) || !s.jobs[j].state.Waiting? ==> !r.jobs[j].state.Waiting?
  {
    hide Inv, Follows, Touches, ChangeGoal;
    r := s;
    if really {
      GoalFollows(s, j, goal, w, luck);
      r := ChangeGoal(s, j, goal, w, luck).value;
    } else {
      SelfTouches(s, j);
      FollowsSelf(s);
    }
    TouchesOnly(s, r, j);
  }

  lemma StartedNotWaiting(s: Sys, j: JobId)
    requires Inv(s) && LiveJob(s, j)
    ensures s.jobs[j].goal.Start? ==> !s.jobs[j].state.Waiting?
  {
    assert JobAtRest(s, j);
  }

  lemma OthersWaitingBack(s: Sys, s1: Sys, s2: Sys, s3: Sys, j: JobId)
    requires forall k: JobId :: LiveJob(s, k) && k != j ==> !s.jobs[k].state.Waiting?
    requires Touches(s, s1, j) && Touches(s2, s3, j)
    requires |s2.jobs| == |s1.jobs| && forall k :: 0 <= k < |s1.jobs| && k != j ==> s2.jobs[k] == s1.jobs[k]
    requires !s3.jobs[j].state.Waiting?
    ensures NoneWaiting(s3)
  {
    forall k: JobId | LiveJob(s3, k) ensures !s3.jobs[k].state.Waiting? {
      if k != j { assert LiveJob(s, k); }
    }
  }

  /** Only this class's start condition, and its table of instances, may differ. */
  ghost predicate OneStart(s: Sys, r: Sys, c: ClassId, startOn: Option<Cond>) {
    && c < |s.classes| == |r.classes| && r.classes[c].startOn == startOn
    && forall d :: 0 <= d < |s.classes| && d != c ==> r.classes[d] == s.classes[d]
  }

  /** job_class_induct_job */
  lemma InductKeeps(s: Sys, c: ClassId, t: Cond, w: World, luck: Oracle)
    requires Inv(s) && NoneWaiting(s) && c in s.registered && LiveClass(s, c) && s.classes[c].startOn == Some(t)
    ensures Induct(s, c, t, w, luck).Ok? && Smooth(s, Ok(Induct(s, c, t, w, luck).value.sys))
    ensures OneStart(s, Induct(s, c, t, w, luck).value.sys, c, Some(Fresh(t)))
  {
    hide Inv, Follows, StartByCondition, ResetStart, FindOrCreate, Collected, ClassEnvironment;
    InvParts(s);
    SoundStart(s, c);
    var config := s.classes[c].config;
    var env := Collected(ClassEnvironment(config, w), t, Described(s.events), "UPSTART_EVENTS", w.outer);
    var name := Expansion.Expand(config.instance, env);
    if name.Err? {
      ResetStartKeeps(s, c);
    } else {
      FindOrCreateKeeps(s, c, name.value);
      var f := FindOrCreate(s, c, name.value).value;
      GrowsFollows(s, f.sys, c);
      StartByConditionKeeps(f.sys, c, f.job, t, env, w, luck);
      var s1 := StartByCondition(f.sys, c, f.job, t, env, w, luck).value;
      FollowsChain(s, f.sys, s1);
      ResetStartKeeps(s1, c);
      FollowsChain(s, s1, ResetStart(s1, c).value);
    }
  }

  lemma GrowsFollows(s: Sys, r: Sys, c: ClassId)
    requires Grows(s, r, c)
    ensures Follows(s, r) && r.classes[c] == s.classes[c].(instances := r.classes[c].instances)
  {
    hide Current;
    if Current(s) { CurrentTables(s, r); }
  }

  lemma OfferStartKeeps(s: Sys, e: EventId, c: ClassId, w: World, luck: Oracle)
    requires Inv(s) && NoneWaiting(s) && c in s.registered && LiveClass(s, c) && LiveEvent(s, e)
    ensures OfferStart(s, e, c, w, luck).Ok? && Smooth(s, Ok(OfferStart(s, e, c, w, luck).value.sys))
    ensures var r := OfferStart(s, e, c, w, luck).value.sys;
            if s.classes[c].startOn.None? then r == s
            else
              var t := Handle(s.classes[c].startOn.value, e, HitBy(w, s.events[e].what, []));
              OneStart(s, r, c, Some(t)) || OneStart(s, r, c, Some(Fresh(t)))
  {
    hide Inv, NoneWaiting, Block, Induct, Handle, Taken, Sound;
    if s.classes[c].startOn.Some? {
      var t0 := s.classes[c].startOn.value;
      var hit := HitBy(w, s.events[e].what, []);
      HandleStartKeeps(s, e, c, hit);
      var t := Handle(t0, e, hit);
      var s1 := Block(SetClass(s, c, s.classes[c].(startOn := Some(t))), e, Taken(t0, hit)).value;
      if Taken(t0, hit) > 0 && t.value {
        InductKeeps(s1, c, t, w, luck);
        SmoothChain(s, s1, Ok(Induct(s1, c, t, w, luck).value.sys));
      }
    } else {
      FollowsSelf(s);
    }
  }

  lemma {:induction false} OfferAllKeeps(s: Sys, e: EventId, cs: seq<ClassId>, w: World, luck: Oracle)
    requires Inv(s) && NoneWaiting(s) && LiveEvent(s, e) && forall c :: c in cs ==> c in s.registered
    ensures Smooth(s, OfferAll(s, e, cs, w, luck))
    decreases |cs|
  {
    hide Inv, NoneWaiting, Follows, OfferStops, OfferStart;
    if cs == [] {
      FollowsSelf(s);
    } else {
      var c := cs[0];
      InstancesLive(s, c);
      OfferStopsKeeps(s, e, s.classes[c].instances, w, luck);
      var s1 := OfferStops(s, e, s.classes[c].instances, w, luck).value;
      FollowsLive(s, s1, e, []);
      FollowsTables(s, s1);
      InstancesLive(s1, c);
      OfferStartKeeps(s1, e, c, w, luck);
      var i := OfferStart(s1, e, c, w, luck).value;
      FollowsLive(s1, i.sys, e, []);
      FollowsTables(s1, i.sys);
      FollowsChain(s, s1, i.sys);
      if i.success {
        OfferAllKeeps(i.sys, e, cs[1..], w, luck);
        SmoothChain(s, i.sys, OfferAll(i.sys, e, cs[1..], w, luck));
      }
    }
  }

  lemma InstancesLive(s: Sys, c: ClassId)
    requires Inv(s) && c in s.registered
    ensures LiveClass(s, c) && forall j :: j in s.classes[c].instances ==> LiveJob(s, j)
  {
  }

  lemma FollowsTables(s: Sys, r: Sys)
    requires Follows(s, r)
    ensures r.registered == s.registered
  {
  }

  // ---- Commands ----

  lemma StartFollows(s: Sys, j: JobId, startEnv: Option<Env>, w: World, luck: Oracle)
    requires Inv(s) && LiveJob(s, j)
    ensures StartInstance(s, j, startEnv, w, luck).Ok? && Follows(s, StartInstance(s, j, startEnv, w, luck).value)
  {
    hide Inv, Follows, JobFinished, ChangeGoal, Touches;
    FollowsSelf(s);
    if !s.jobs[j].goal.Start? {
      FinishFollows(s, j, s.jobs[j].(startEnv := startEnv));
      var s1 := JobFinished(SetJob(s, j, s.jobs[j].(startEnv := startEnv)), j, false).value;
      GoalFollows(s1, j, Start, w, luck);
      FollowsChain(s, s1, ChangeGoal(s1, j, Start, w, luck).value);
    }
  }

  lemma StopFollows(s: Sys, j: JobId, w: World, luck: Oracle)
    requires Inv(s) && LiveJob(s, j)
    ensures StopInstance(s, j, w, luck).Ok? && Follows(s, StopInstance(s, j, w, luck).value)
  {
    hide Inv, Follows, JobFinished, ChangeGoal, Touches;
    FollowsSelf(s);
    if !s.jobs[j].goal.Stop? {
      FinishFollows(s, j, s.jobs[j].(stopEnv := None));
      var s1 := JobFinished(SetJob(s, j, s.jobs[j].(stopEnv := None)), j, false).value;
      GoalFollows(s1, j, Stop, w, luck);
      FollowsChain(s, s1, ChangeGoal(s1, j, Stop, w, luck).value);
    }
  }

  lemma RestartFollows(s: Sys, j: JobId, w: World, luck: Oracle)
    requires Inv(s) && LiveJob(s, j)
    ensures RestartInstance(s, j, w, luck).Ok? && Follows(s, RestartInstance(s, j, w, luck).value)
  {
    hide Inv, Follows, JobFinished, ChangeGoal, Touches;
    FollowsSelf(s);
    if !s.jobs[j].goal.Stop? {
      var job := s.jobs[j].(startEnv := None, stopEnv := None);
      FinishFollows(s, j, job);
      var s1 := JobFinished(SetJob(s, j, job), j, false).value;
      GoalFollows(s1, j, Stop, w, luck);
      var s2 := ChangeGoal(s1, j, Stop, w, luck).value;
      FollowsChain(s, s1, s2);
      GoalFollows(s2, j, Start, w, luck);
      FollowsChain(s, s2, ChangeGoal(s2, j, Start, w, luck).value);
    }
  }

  lemma StartFromClassFollows(s: Sys, c: ClassId, env: Env, w: World, luck: Oracle)
    requires Inv(s) && c in s.registered
    ensures StartFromClass(s, c, env, w, luck).Ok? && Follows(s, StartFromClass(s, c, env, w, luck).value)
  {
    hide Inv, Follows, FindOrCreate, StartInstance;
    RegisteredLives(s, c);
    FollowsSelf(s);
    var config := s.classes[c].config;
    var startEnv := Appended(ClassEnvironment(config, w), env, true, w.outer);
    var name := Expansion.Expand(config.instance, startEnv);
    if name.Ok? {
      FindOrCreateKeeps(s, c, name.value);
      var f := FindOrCreate(s, c, name.value).value;
      GrowsFollows(s, f.sys, c);
      StartFollows(f.sys, f.job, Some(startEnv), w, luck);
      FollowsChain(s, f.sys, StartInstance(f.sys, f.job, Some(startEnv), w, luck).value);
    }
  }
}

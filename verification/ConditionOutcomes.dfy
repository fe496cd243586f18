/** What a condition that has come true does to its job: exactly this. */
module ConditionOutcomes {
  import opened Wrappers
  import opened Environ
  import opened Condition
  import opened ConditionEnviron
  import opened JobMachine
  import opened Supervisor
  import opened SupervisorSteps
  import opened Ledger
  import opened Invariant
  import opened Transitions
  import opened Arrival
  import opened ProcessSteps
  import opened CommandSteps
  import opened CommandOutcomes
  import opened OfferSteps

  /**
   The job after its stop condition came true: it blocks the gathered events, in place of what it
   blocked if it was not to stop before; then it is also to stop, with the environment, and halts
   if it was running.
   */
  function StoppedBy(config: Config, job: Job, clean: Cond, gathered: seq<EventId>, stopEnv: Env, e: EventId): Job {
    var reset := job.(stopOn := Some(clean));
    if job.goal.Stop? then reset.(blocking := job.blocking + gathered)
    else
      var told := reset.(goal := Stop, stopEnv := Some(stopEnv), blocking := gathered);
      if job.state.Running? then Halted(config, told, e) else told
  }

  /**
   The job after the start condition of its class came true: it is to start with the environment,
   and blocks the gathered events in place of what it blocked; if it was to start already, it
   blocks them as well, unless it is a service that runs.
   */
  function StartedBy(config: Config, job: Job, gathered: seq<EventId>, env: Env, e: EventId): Job {
    if job.goal.Start? then
      if config.task || !job.state.Running? then job.(blocking := job.blocking + gathered) else job
    else
      var told := job.(goal := Start, startEnv := Some(env), blocking := gathered);
      if job.state.Waiting? then Begun(told, e) else told
  }

  /** The job gives up what it blocks, if it is to change its goal, and blocks the gathered events. */
  lemma Reblocked(s: Sys, j: JobId, job: Job, t: Cond, finish: bool, block: bool) returns (s1: Sys, s2: Sys)
    requires Inv(s) && LiveJob(s, j) && SameLinks(s.jobs[j], job)
    requires SameMotion(s.jobs[j], job) && job.failed == s.jobs[j].failed
    requires job.failedProcess == s.jobs[j].failedProcess
    requires Sound(t)
             && (s.jobs[j].stopOn == Some(t) || exists c: ClassId :: c < |s.classes| && s.classes[c].startOn == Some(t))
    ensures (if finish then JobFinished(SetJob(s, j, job), j, false) else Ok(s)) == Ok(s1)
    ensures j < |s1.jobs| && s1.jobs[j].state == s.jobs[j].state
    ensures (if block then BlockGathered(s1, j, t) else Ok(s1)) == Ok(s2)
    ensures Inv(s2) && LiveJob(s2, j) && s2.classes == s.classes && |s2.events| == |s.events|
    ensures s2.jobs[j] == (if finish then job else s.jobs[j]).(
                            blocking := (if finish then [] else s.jobs[j].blocking) + (if block then Gathered(t)
                              else []))
  {
    hide Inv, Follows, JobFinished, BlockGathered, Touches, SoundTrees, Balanced, Gathered, Sound, OnlyJob;
    s1 := MaybeFinished(s, j, job, finish);
    InvParts(s1);
    assert s1.jobs[j].stopOn == s.jobs[j].stopOn;
    GatheredLive(s1, t);
    s2 := MaybeBlocked(s1, j, t, block);
    assert s.jobs[j].blocking + [] == s.jobs[j].blocking;
  }

  lemma StopByConditionExactly(s: Sys, j: JobId, t: Cond, w: World, luck: Oracle)
    requires Inv(s) && NoneWaiting(s) && LiveJob(s, j) && s.jobs[j].stopOn == Some(t)
    ensures LiveClass(s, s.jobs[j].cls) && Sound(t) && StopByCondition(s, j, t, w, luck).Ok?
    ensures var r := StopByCondition(s, j, t, w, luck).value;
            && j < |r.jobs|
            && r.jobs[j] == StoppedBy(s.classes[s.jobs[j].cls].config, s.jobs[j], Fresh(t), Gathered(t),
                              Collected([], t, Described(s.events), "UPSTART_STOP_EVENTS", w.outer), |s.events|)
  {
    hide Inv, Follows, JobFinished, BlockGathered, ChangeGoal, ResetStop, Touches, Collected, SoundTrees,
      Gathered, Sound, OnlyJob, Halted, Stops, WaitsAs, Marks, NoneWaiting, StopByCondition, JobOk, Base;
    InvParts(s);
    SoundStop(s, j);
    ReadyAtRest(s, j);
    RestGoals(s.classes[s.jobs[j].cls].config, s.jobs[j]);
    var stopEnv := Some(Collected([], t, Described(s.events), "UPSTART_STOP_EVENTS", w.outer));
    var stopping := !s.jobs[j].goal.Stop?;
    var s1, s2 := Reblocked(s, j, s.jobs[j].(stopEnv := stopEnv), t, stopping, true);
    var s3 := MaybeGoal(s2, j, Stop, stopping, w, luck);
    ResetStopKeeps(s3, j);
    StopsBy(s, j, t, w, luck, s1, s2, s3);
    Remains(s3, ResetStop(s3, j).value, j);
    if stopping {
      GoalOutcome(s2, j, Stop, w, luck);
      assert [] + Gathered(t) == Gathered(t);
      HaltsReset(s2, s3, j, s2.jobs[j].(goal := Stop), t);
    }
  }

  lemma Remains(s: Sys, r: Sys, j: JobId)
    requires OnlyJob(s, r, j)
    ensures j < |r.jobs|
  {
  }

  lemma StopsBy(s: Sys, j: JobId, t: Cond, w: World, luck: Oracle, s1: Sys, s2: Sys, s3: Sys)
    requires NoneWaiting(s) && LiveJob(s, j) && Sound(t) && LiveJob(s2, j) && j < |s1.jobs|
    requires var stopEnv := Some(Collected([], t, Described(s.events), "UPSTART_STOP_EVENTS", w.outer));
             var stopping := !s.jobs[j].goal.Stop?;
             && (if stopping then JobFinished(SetJob(s, j, s.jobs[j].(stopEnv := stopEnv)), j, false) else Ok(s)) ==
                Ok(s1)
             && BlockGathered(s1, j, t) == Ok(s2)
             && (if stopping then ChangeGoal(s2, j, Stop, w, luck) else Ok(s2)) == Ok(s3)
    requires s1.jobs[j].state == s.jobs[j].state
    ensures StopByCondition(s, j, t, w, luck) == ResetStop(s3, j)
  {
    hide JobFinished, BlockGathered, ChangeGoal, ResetStop, Collected, Gathered, Sound;
  }

  lemma HaltsReset(s: Sys, r: Sys, j: JobId, job: Job, t: Cond)
    requires j < |r.jobs| && job.cls < |s.classes|
    ensures Stops(s, r, j, job) ==> r.jobs[j] == Halted(s.classes[job.cls].config, job, |s.events|)
    ensures var config := s.classes[job.cls].config;
            Halted(config, job, |s.events|).(stopOn := Some(Fresh(t))) ==
            Halted(config, job.(stopOn := Some(Fresh(t))), |s.events|)
  {
    hide Marks;
  }

  lemma StartByConditionExactly(s: Sys, c: ClassId, j: JobId, t: Cond, env: Env, w: World, luck: Oracle)
    requires Inv(s) && LiveJob(s, j) && LiveClass(s, c) && s.classes[c].startOn == Some(t) && s.jobs[j].cls == c
    requires forall k: JobId :: LiveJob(s, k) && k != j ==> !s.jobs[k].state.Waiting?
    ensures Sound(t) && StartByCondition(s, c, j, t, env, w, luck).Ok?
    ensures var r := StartByCondition(s, c, j, t, env, w, luck).value;
            j < |r.jobs| && r.jobs[j] == StartedBy(s.classes[c].config, s.jobs[j], Gathered(t), env, |s.events|)
  {
    hide Inv, Follows, JobFinished, BlockGathered, ChangeGoal, Touches, SoundTrees, Gathered, Sound,
      NoneWaiting, OnlyJob, Begun, Marks;
    InvParts(s);
    SoundStart(s, c);
    ReadyAtRest(s, j);
    RestGoals(s.classes[s.jobs[j].cls].config, s.jobs[j]);
    var starting, blocks := !s.jobs[j].goal.Start?, s.classes[c].config.task || !s.jobs[j].state.Running?;
    var s1, s2 := Reblocked(s, j, s.jobs[j].(startEnv := Some(env)), t, starting, blocks);
    var s3 := MaybeGoal(s2, j, Start, starting, w, luck);
    assert StartByCondition(s, c, j, t, env, w, luck) == Ok(s3);
    assert [] + Gathered(t) == Gathered(t) && s.jobs[j].blocking + [] == s.jobs[j].blocking;
    if starting {
      GoalOutcome(s2, j, Start, w, luck);
    }
  }
}

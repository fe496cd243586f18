/** Goal and state changes of one job inside the whole supervisor. */
module Transitions {
  import opened Wrappers
  import opened Condition
  import opened ConditionEnviron
  import opened JobMachine
  import opened JobReactions
  import opened Supervisor
  import opened Ledger
  import opened Invariant

  /** Only this job changes; existing events at most lose references; the tables change only if the job is freed. */
  ghost predicate Touches(s: Sys, r: Sys, j: JobId) {
    && Calm(s, r)
    && j < |s.jobs| && |r.jobs| == |s.jobs| && (forall k :: 0 <= k < |s.jobs| && k != j ==> r.jobs[k] == s.jobs[k])
    && SameConfigs(s, r) && r.files == s.files
    && (r.jobs[j].blocking == s.jobs[j].blocking || r.jobs[j].blocking == [])
    && (LiveJob(r, j) ==>
          && r.classes == s.classes && r.registered == s.registered
          && r.jobs[j].stopOn == s.jobs[j].stopOn && r.jobs[j].cls == s.jobs[j].cls && r.jobs[j].name == s.jobs[j].name)
    && (!LiveJob(r, j) && Current(s) ==> Current(r))
  }

  /** The registry stays up to date. */
  lemma TouchesCurrent(s: Sys, r: Sys, j: JobId)
    requires Touches(s, r, j) && Current(s)
    ensures Current(r)
  {
    hide Current;
    if LiveJob(r, j) { CurrentTables(s, r); }
  }

  lemma TouchesChain(a: Sys, b: Sys, c: Sys, j: JobId)
    requires Touches(a, b, j) && Touches(b, c, j) && LiveJob(b, j)
    ensures Touches(a, c, j)
  {
    hide Current;
    CalmChain(a, b, c);
    if Current(a) { TouchesCurrent(a, b, j); }
  }

  /** The state with one job changed inside. */
  lemma LocalTouches(s: Sys, j: JobId, job: Job)
    requires LiveJob(s, j) && SameLinks(s.jobs[j], job)
    ensures Touches(s, SetJob(s, j, job), j)
  {
    hide Current;
  }

  lemma OneMore(s: Sys, j: JobId)
    requires Base(s) && OthersAtRest(s, j) && JobAtRest(s, j)
    ensures Inv(s)
  {
    hide Base, JobAtRest;
    forall k: JobId ensures JobAtRest(s, k) { if k != j { assert OthersAtRest(s, j); } }
  }

  lemma FinishTouches(s: Sys, j: JobId, failed: bool)
    requires Base(s) && LiveJob(s, j)
    ensures JobFinished(s, j, failed).Ok?
    ensures var r := JobFinished(s, j, failed).value;
            Base(r) && Touches(s, r, j) && LiveJob(r, j) && r.jobs[j] == s.jobs[j].(blocking := [])
    ensures OthersAtRest(s, j) ==> OthersAtRest(JobFinished(s, j, failed).value, j)
  {
    hide Base, JobFinished, OthersAtRest, Calm;
    JobFinishedKeeps(s, j, failed);
  }

  /** The job's own event, for which nobody waits. */
  lemma EmitTouches(s: Sys, j: JobId, w: World)
    requires Base(s) && LiveJob(s, j) && OthersAtRest(s, j)
    ensures EmitEvent(s, j, false, w).Ok?
    ensures var r := EmitEvent(s, j, false, w).value;
            Base(r) && Touches(s, r, j) && LiveJob(r, j) && r.jobs == s.jobs && OthersAtRest(r, j)
              && r.classes == s.classes
  {
    hide Base, OthersAtRest, Calm;
    LivingClass(s, j);
    var job := s.jobs[j];
    var stop := job.state.Stopping? || job.state.Waiting?;
    NewEventKeeps(s, Occurrence(EventName(job.state), w.eventEnv(s.classes[job.cls].config, job, stop)));
  }

  lemma LivingClass(s: Sys, j: JobId)
    requires Base(s) && LiveJob(s, j)
    ensures LiveClass(s, s.jobs[j].cls)
  {
  }

  /** The effects of a state keep the invariant and leave the job at rest. */
  lemma PerformKeeps(s: Sys, j: JobId, effect: Effect, w: World)
    requires Base(s) && LiveJob(s, j) && OthersAtRest(s, j) && s.jobs[j].blocker.None?
    requires LiveClass(s, s.jobs[j].cls) && Settles(s.classes[s.jobs[j].cls].config, Rest(s.jobs[j], effect))
    ensures Perform(s, j, effect, w).Ok?
    ensures var r := Perform(s, j, effect, w).value;
            && Inv(r) && Touches(s, r, j)
            && (LiveJob(r, j) <==> !effect.EmitAndFree?)
            && (LiveJob(r, j) ==> r.jobs[j] == s.jobs[j].(blocking := r.jobs[j].blocking, blocker := r.jobs[j].blocker))
  {
    hide Base, OthersAtRest, Calm, JobFinished, EmitEvent, Retire, Steady, Current;
    match effect
    case Nothing =>
      LocalTouches(s, j, s.jobs[j]);
      assert SetJob(s, j, s.jobs[j]) == s;
      OneMore(s, j);
    case EmitAndBlock => WaitTouches(s, j, w);
    case EmitStarted =>
      EmitTouches(s, j, w);
      OneMore(EmitEvent(s, j, false, w).value, j);
    case EmitStartedAndFinish =>
      EmitTouches(s, j, w);
      var s1 := EmitEvent(s, j, false, w).value;
      FinishTouches(s1, j, false);
      FinishRests(s1, j, false);
      TouchesChain(s, s1, JobFinished(s1, j, false).value, j);
    case FinishOnly =>
      FinishTouches(s, j, false);
      FinishRests(s, j, false);
    case EmitAndFree =>
      EmitTouches(s, j, w);
      var s1 := EmitEvent(s, j, false, w).value;
      FinishTouches(s1, j, false);
      var s2 := JobFinished(s1, j, false).value;
      TouchesChain(s, s1, s2, j);
      RetireRests(s2, j);
      TouchesChain(s, s2, Retire(s2, j).value, j);
  }

  lemma WaitTouches(s: Sys, j: JobId, w: World)
    requires Base(s) && LiveJob(s, j) && OthersAtRest(s, j) && s.jobs[j].blocker.None?
    requires LiveClass(s, s.jobs[j].cls) && Settles(s.classes[s.jobs[j].cls].config, Rest(s.jobs[j], EmitAndBlock))
    ensures Perform(s, j, EmitAndBlock, w).Ok?
    ensures var r := Perform(s, j, EmitAndBlock, w).value;
            && Inv(r) && Touches(s, r, j) && LiveJob(r, j)
            && r.jobs[j] == s.jobs[j].(blocker := Some(|s.events|))
  {
    hide Base, OthersAtRest, Calm;
    var job := s.jobs[j];
    var stop := job.state.Stopping? || job.state.Waiting?;
    var what := Occurrence(EventName(job.state), w.eventEnv(s.classes[job.cls].config, job, stop));
    WaitedKeeps(s, j, what);
    var r := Waited(s, j, what);
    assert Perform(s, j, EmitAndBlock, w) == Ok(r);
    OneMore(r, j);
  }

  lemma FinishRests(s: Sys, j: JobId, failed: bool)
    requires Base(s) && LiveJob(s, j) && OthersAtRest(s, j) && JobAtRest(s, j)
    ensures JobFinished(s, j, failed).Ok? && Inv(JobFinished(s, j, failed).value)
  {
    hide Base, OthersAtRest, JobFinished;
    FinishTouches(s, j, failed);
    OneMore(JobFinished(s, j, failed).value, j);
  }

  lemma RetireRests(s: Sys, j: JobId)
    requires Base(s) && LiveJob(s, j) && OthersAtRest(s, j) && s.jobs[j].blocker.None? && s.jobs[j].blocking == []
    ensures Retire(s, j).Ok?
    ensures var r := Retire(s, j).value; Inv(r) && Touches(s, r, j) && !LiveJob(r, j)
  {
    hide Base, OthersAtRest, Retire, Calm, Current, Without;
    RetireKeeps(s, j);
    var r := Retire(s, j).value;
    RetiredBlocking(s, j);
    OneMore(r, j);
  }

  lemma RetiredBlocking(s: Sys, j: JobId)
    requires LiveJob(s, j) && s.jobs[j].blocking == [] && Retire(s, j).Ok?
    ensures j < |Retire(s, j).value.jobs| && Retire(s, j).value.jobs[j].blocking == []
  {
    hide UnblockAll, Named;
  }

  /**
   job_change_state on a job that may move: no assertion fails, the invariant
   holds again afterwards, and the job rests where its class says.
   */
  lemma ChangeStateKeeps(s: Sys, j: JobId, target: JobState, w: World, luck: Oracle)
    requires Base(s) && LiveJob(s, j) && OthersAtRest(s, j) && LiveClass(s, s.jobs[j].cls)
    requires Moving(s.classes[s.jobs[j].cls].config, s.jobs[j], target, luck(j, |s.events|))
    ensures ChangeState(s, j, target, w, luck).Ok?
    ensures var r := ChangeState(s, j, target, w, luck).value;
            var config := s.classes[s.jobs[j].cls].config;
            var d := Destination(config, s.jobs[j].goal.Start?, MainProcess in s.jobs[j].procs, target,
              luck(j, |s.events|));
            && Inv(r) && Touches(s, r, j)
            && (LiveJob(r, j) <==> !d.Waiting?)
            && (LiveJob(r, j) ==>
                  r.jobs[j].state == d && r.jobs[j].goal == s.jobs[j].goal
                    && r.jobs[j].procs == s.jobs[j].procs + Inhabitants(d))
  {
    hide Base, OthersAtRest, Settle, Perform, Touches, Destination, Inhabitants, Steady;
    var job := s.jobs[j];
    var config := s.classes[job.cls].config;
    var alive, chance := MainProcess in job.procs, luck(j, |s.events|);
    MovingApart(config, job, target, chance);
    SettleSettles(config, job, target, chance);
    SettleDestination(config, job, alive, target, chance);
    var rest := Settle(config, job, target, chance).value;
    LocalChange(s, j, rest.job);
    LocalTouches(s, j, rest.job);
    var s1 := SetJob(s, j, rest.job);
    PerformKeeps(s1, j, rest.effect, w);
    TouchesChain(s, s1, Perform(s1, j, rest.effect, w).value, j);
  }

  /** The name a job gives to the event of a state, if it emits one. */
  function Announced(state: JobState): Option<string> {
    match state
    case Starting => Some("starting")
    case Running => Some("started")
    case Stopping => Some("stopping")
    case Waiting => Some("stopped")
    case _ => None
  }

  /**
   What performing an effect leaves of it: the event of the state, and whether the job still
   blocks what it blocked.
   */
  lemma PerformAnnounces(s: Sys, j: JobId, effect: Effect, fromPreStop: bool, w: World)
    requires LiveJob(s, j) && LiveClass(s, s.jobs[j].cls) && Perform(s, j, effect, w).Ok?
    requires effect == Consequence(s.classes[s.jobs[j].cls].config, s.jobs[j].state, fromPreStop)
    ensures Announces(s, Perform(s, j, effect, w).value, j, if effect.FinishOnly? then None
            else Announced(s.jobs[j].state), Blocked(s.jobs[j].state))
    ensures effect.EmitStartedAndFinish? || effect.FinishOnly? ==> Perform(s, j, effect, w).value.jobs[j].blocking == []
    ensures effect.EmitStarted? || effect.Nothing? ==>
              Perform(s, j, effect, w).value.jobs[j].blocking == s.jobs[j].blocking
  {
    hide JobFinished, Retire;
    match effect
    case EmitStartedAndFinish =>
      var s1 := EmitEvent(s, j, false, w).value;
      FinishKeepsEvents(s1, j, JobFinished(s1, j, false).value);
    case FinishOnly => FinishKeepsEvents(s, j, JobFinished(s, j, false).value);
    case EmitAndFree =>
      var s1 := EmitEvent(s, j, false, w).value;
      var s2 := JobFinished(s1, j, false).value;
      FinishKeepsEvents(s1, j, s2);
      RetireKeepsEvents(s2, j);
    case _ =>
  }

  /** At most one event is new: it has the name, and lists the job if the job waits for it. */
  ghost predicate Announces(s: Sys, r: Sys, j: JobId, name: Option<string>, waits: bool) {
    if name.None? then |r.events| == |s.events|
    else
      && |r.events| == |s.events| + 1 && r.events[|s.events|].what.name == name.value
      && r.events[|s.events|].blocking == (if waits then [j] else [])
  }

  lemma {:induction false} FinishKeepsEvents(s: Sys, j: JobId, r: Sys)
    requires JobFinished(s, j, false) == Ok(r)
    ensures |r.events| == |s.events| && forall e :: 0 <= e < |s.events| ==>
              r.events[e] == s.events[e].(blockers := r.events[e].blockers)
    ensures j < |r.jobs| && r.jobs[j].blocking == []
    decreases if LiveJob(s, j) then |s.jobs[j].blocking| else 0
  {
    var job := s.jobs[j];
    if job.blocking != [] {
      var s1 := Unblock(s, job.blocking[0]).value;
      FinishKeepsEvents(SetJob(s1, j, job.(blocking := job.blocking[1..])), j, r);
    }
  }

  lemma {:induction false} UnblockKeepsEvents(s: Sys, es: seq<EventId>)
    requires UnblockAll(s, es).Ok?
    ensures var r := UnblockAll(s, es).value;
            |r.events| == |s.events| && forall e :: 0 <= e < |s.events| ==>
                r.events[e] == s.events[e].(blockers := r.events[e].blockers)
    decreases |es|
  {
    if es != [] { UnblockKeepsEvents(Unblock(s, es[0]).value, es[1..]); }
  }

  lemma RetireKeepsEvents(s: Sys, j: JobId)
    requires Retire(s, j).Ok?
    ensures var r := Retire(s, j).value;
            |r.events| == |s.events| && forall e :: 0 <= e < |s.events| ==>
                r.events[e] == s.events[e].(blockers := r.events[e].blockers)
  {
    hide UnblockAll, Named, Without;
    UnblockKeepsEvents(s, HeldBy(s.jobs[j].stopOn));
    var c := s.jobs[j].cls;
    var s1 := FreeJob(s, j).value;
    var r := Reconsider(s1, c).value;
    if r.sys.classes[c].deleted && r.gone { UnblockKeepsEvents(r.sys, HeldBy(r.sys.classes[c].startOn)); }
  }

  /**
   A state change emits exactly the event of the state it rests in, which the
   job waits for when starting or stopping; a service that is running, and any
   job that went back to running, blocks nothing any more.
   */
  lemma ChangeStateAnnounces(s: Sys, j: JobId, target: JobState, w: World, luck: Oracle)
    requires Base(s) && LiveJob(s, j) && OthersAtRest(s, j) && LiveClass(s, s.jobs[j].cls)
    requires Moving(s.classes[s.jobs[j].cls].config, s.jobs[j], target, luck(j, |s.events|))
    ensures ChangeState(s, j, target, w, luck).Ok?
    ensures var r, config := ChangeState(s, j, target, w, luck).value, s.classes[s.jobs[j].cls].config;
            var d := Destination(config, s.jobs[j].goal.Start?, MainProcess in s.jobs[j].procs, target,
              luck(j, |s.events|));
            var back := target.Running? && s.jobs[j].state.PreStop?;
            && Announces(s, r, j, if back then None else Announced(d), Blocked(d))
            && j < |r.jobs|
            && (d.Running? && (back || !config.task) ==> r.jobs[j].blocking == [])
            && (d.Running? && !back && config.task ==> r.jobs[j].blocking == s.jobs[j].blocking)
  {
    hide Base, OthersAtRest, Settle, Perform, Touches, Destination, Inhabitants, Steady, Inv, Moving, Announces;
    ChangeStateKeeps(s, j, target, w, luck);
    var job, chance := s.jobs[j], luck(j, |s.events|);
    var config := s.classes[job.cls].config;
    MovingApart(config, job, target, chance);
    SettleSettles(config, job, target, chance);
    SettleDestination(config, job, MainProcess in job.procs, target, chance);
    SettleEffect(config, job, target, chance);
    var rest := Settle(config, job, target, chance).value;
    var s1 := SetJob(s, j, rest.job);
    PerformAnnounces(s1, j, rest.effect, target.Running? && job.state.PreStop?, w);
    RunningDestination(config, job.goal.Start?, MainProcess in job.procs, target, chance);
    AnnouncedToo(s, s1, Perform(s1, j, rest.effect, w).value, j, rest.effect, config, target.Running?
      && job.state.PreStop?);
    StillThere(s1, j, rest.effect, w);
  }

  lemma AnnouncedToo(s: Sys, s1: Sys, r: Sys, j: JobId, effect: Effect, config: Config, back: bool)
    requires j < |s1.jobs| && s1.events == s.events && effect == Consequence(config, s1.jobs[j].state, back)
    requires Announces(s1, r, j, if effect.FinishOnly? then None
             else Announced(s1.jobs[j].state), Blocked(s1.jobs[j].state))
    requires back ==> s1.jobs[j].state.Running?
    ensures Announces(s, r, j, if back then None else Announced(s1.jobs[j].state), Blocked(s1.jobs[j].state))
  {
  }

  lemma RunningDestination(config: Config, start: bool, mainAlive: bool, target: JobState, luck: Luck)
    ensures target.Running? ==> Destination(config, start, mainAlive, target, luck).Running?
  {
  }

  lemma StillThere(s: Sys, j: JobId, effect: Effect, w: World)
    requires LiveJob(s, j) && Perform(s, j, effect, w).Ok?
    ensures j < |Perform(s, j, effect, w).value.jobs|
  {
    hide JobFinished, UnblockAll, Named, Without;
  }

  lemma MovingApart(config: Config, job: Job, target: JobState, luck: Luck)
    requires Moving(config, job, target, luck)
    ensures job.state != target && job.blocker.None?
  {
  }

  lemma AdvanceKeeps(s: Sys, j: JobId, w: World, luck: Oracle)
    requires Base(s) && LiveJob(s, j) && OthersAtRest(s, j) && LiveClass(s, s.jobs[j].cls)
    requires Departs(s.classes[s.jobs[j].cls].config, s.jobs[j])
    ensures AdvanceJob(s, j, w, luck).Ok?
    ensures var r := AdvanceJob(s, j, w, luck).value;
            var config := s.classes[s.jobs[j].cls].config;
            var d := NextState(config, s.jobs[j]).value;
            var place := Destination(config, d.job.goal.Start?, MainProcess in d.job.procs, d.target,
              luck(j, |s.events|));
            && Inv(r) && Touches(s, r, j)
            && (LiveJob(r, j) <==> !place.Waiting?)
            && (LiveJob(r, j) ==>
                  r.jobs[j].state == place && r.jobs[j].goal == d.job.goal
                    && r.jobs[j].procs == d.job.procs + Inhabitants(place))
  {
    hide Base, OthersAtRest, ChangeState, Touches, Destination, Inhabitants, Moving;
    var config := s.classes[s.jobs[j].cls].config;
    var d := NextState(config, s.jobs[j]).value;
    LocalChange(s, j, d.job);
    LocalTouches(s, j, d.job);
    var s1 := SetJob(s, j, d.job);
    ChangeStateKeeps(s1, j, d.target, w, luck);
    TouchesChain(s, s1, ChangeState(s1, j, d.target, w, luck).value, j);
  }

  /** job_change_goal keeps the invariant and never frees its job. */
  lemma GoalKeeps(s: Sys, j: JobId, goal: Goal, w: World, luck: Oracle)
    requires Inv(s) && LiveJob(s, j) && !goal.Respawning?
    ensures ChangeGoal(s, j, goal, w, luck).Ok?
    ensures var r := ChangeGoal(s, j, goal, w, luck).value;
            && Inv(r) && Touches(s, r, j) && LiveJob(r, j) && r.jobs[j].goal == goal
            && (goal.Start? ==> !r.jobs[j].state.Waiting?)
            && (!s.jobs[j].state.Waiting? ==> !r.jobs[j].state.Waiting?)
            && (!s.jobs[j].state.Waiting? && !s.jobs[j].state.Running? ==> r.jobs[j] == s.jobs[j].(goal := goal))
            && (r.jobs[j].state.Running? ==> r.jobs[j] == s.jobs[j])
  {
    hide Base, OthersAtRest, AdvanceJob, Touches, Departs, Steady;
    assert JobAtRest(s, j);
    var job := s.jobs[j];
    var config := s.classes[job.cls].config;
    RunningGoalIsStart(config, job);
    InvBut(s, j);
    if job.goal == goal {
      LocalTouches(s, j, job);
      assert SetJob(s, j, job) == s;
      WaitingGoal(config, job);
    } else {
      var moved := job.(goal := goal);
      LocalChange(s, j, moved);
      LocalTouches(s, j, moved);
      var s1 := SetJob(s, j, moved);
      if (goal.Start? && job.state.Waiting?) || (goal.Stop? && job.state.Running?) {
        GoalDeparts(config, job, goal);
        GoalPlace(config, job, goal, luck(j, |s.events|));
        AdvanceKeeps(s1, j, w, luck);
        TouchesChain(s, s1, AdvanceJob(s1, j, w, luck).value, j);
      } else {
        WaitingGoal(config, job);
        GoalRests(config, job, goal);
        OneMore(s1, j);
      }
    }
  }

  lemma WaitingGoal(config: Config, job: Job)
    requires JobOk(config, job)
    ensures job.state.Waiting? ==> job.goal.Stop?
  {
  }

  lemma RunningGoalIsStart(config: Config, job: Job)
    requires JobOk(config, job)
    ensures job.state.Running? ==> job.goal.Start?
  {
  }

  lemma InvBut(s: Sys, j: JobId)
    requires Inv(s)
    ensures Base(s) && OthersAtRest(s, j)
  {
  }

  /** Where a goal change takes a job at one of the natural rest states. */
  lemma GoalPlace(config: Config, job: Job, goal: Goal, luck: Luck)
    requires (goal.Start? && job.state.Waiting?) || (goal.Stop? && job.state.Running?)
    ensures var moved := job.(goal := goal);
            var d := NextState(config, moved);
            && d.Ok? && d.value.job == moved
            && !Destination(config, goal.Start?, MainProcess in job.procs, d.value.target, luck).Waiting?
            && !Destination(config, goal.Start?, MainProcess in job.procs, d.value.target, luck).Running?
  {
  }

  /** A job with a main process gets to running only from where that process is already up. */
  lemma RunningReached(config: Config, start: bool, mainAlive: bool, target: JobState, luck: Luck)
    requires Destination(config, start, mainAlive, target, luck).Running? && MainProcess in config.processes
    ensures target.Running? || target.PostStarting? || target.PostStart?
  {
  }

  lemma BaseBalanced(s: Sys)
    requires Base(s)
    ensures Balanced(s)
  {
  }

  /** job_failed: the failure is recorded once, and the events the job blocks are marked and given back. */
  lemma FailTouches(s: Sys, j: JobId, p: Option<Process>, status: int)
    requires Base(s) && LiveJob(s, j)
    ensures JobFailed(s, j, p, status).Ok?
    ensures var r := JobFailed(s, j, p, status).value;
            && Base(r) && Touches(s, r, j) && LiveJob(r, j)
            && r.jobs[j] == (if s.jobs[j].failed then s.jobs[j]
                             else s.jobs[j].(failed := true, failedProcess := p, exitStatus := status, blocking := []))
            && FinishedEvents(s, r, if s.jobs[j].failed then [] else s.jobs[j].blocking, true)
    ensures OthersAtRest(s, j) ==> OthersAtRest(JobFailed(s, j, p, status).value, j)
  {
    hide Base, OthersAtRest, JobFinished, Touches, Balanced;
    var job := s.jobs[j];
    if job.failed {
      LocalTouches(s, j, job);
      assert SetJob(s, j, job) == s;
    } else {
      var marked := job.(failed := true, failedProcess := p, exitStatus := status);
      LocalChange(s, j, marked);
      LocalTouches(s, j, marked);
      var s1 := SetJob(s, j, marked);
      BaseBalanced(s1);
      JobFinishedBalanced(s1, j, true);
      FinishTouches(s1, j, true);
      TouchesChain(s, s1, JobFinished(s1, j, true).value, j);
    }
  }
}

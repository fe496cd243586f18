/** The supervisor as it runs: jobs, classes and events updated in place, step by step. */
module Daemon {
  import opened Wrappers
  import opened Environ
  import opened Condition
  import opened ConditionEnviron
  import opened JobMachine
  import opened Supervisor
  import opened SupervisorSteps
  import opened ConfigSteps
  import opened SupervisorRuns
  import Expansion

  lemma EnterSets(config: Config, job: Job, target: JobState, luck: Luck)
    ensures var e := Enter(config, job, target, luck); e.Ok? ==>
              e.value.job.state == target && e.value.job.live == job.live
  {
  }

  lemma PerformStays(s: Sys, j: JobId, effect: Effect, w: World)
    requires LiveJob(s, j)
    ensures effect.Nothing? ==> Perform(s, j, effect, w) == Ok(s)
    ensures var r := Perform(s, j, effect, w);
            r.Ok? && !effect.EmitAndFree? ==> j < |r.value.jobs| && r.value.jobs[j].state == s.jobs[j].state
  {
  }

  class Init {
    var jobs: seq<Job>
    var classes: seq<JobClass>
    var events: seq<Event>
    var queue: seq<EventId>
    var registered: seq<ClassId>
    var files: seq<ClassId>
    ghost var history: seq<Act>

    ghost function State(): Sys
      reads this
    {
      Sys(jobs, classes, events, queue, registered, files, history)
    }

    constructor ()
      ensures State() == INITIAL
    {
      jobs, classes, events, queue, registered, files := [], [], [], [], [], [];
      history := [];
    }

    // ---- References ----

    /** event_new */
    method NewEvent(what: Occurrence, blocking: seq<JobId>)
      modifies this
      ensures State() == old(EventNew(State(), what, blocking))
    {
      queue := queue + [|events|];
      events := events + [Event(true, what, Pending, false, 0, blocking)];
    }

    /** event_block, as often as there are leaves that took the event */
    method BlockEvent(e: EventId, n: nat)
      requires Block(State(), e, n).Ok?
      modifies this
      ensures Ok(State()) == old(Block(State(), e, n))
    {
      events := events[e := events[e].(blockers := events[e].blockers + n)];
    }

    /** event_unblock */
    method UnblockEvent(e: EventId)
      requires Unblock(State(), e).Ok?
      modifies this
      ensures Ok(State()) == old(Unblock(State(), e))
    {
      assert events[e].blockers > 0;
      events := events[e := events[e].(blockers := events[e].blockers - 1)];
    }

    method BlockEvents(es: seq<EventId>)
      requires BlockAll(State(), es).Ok?
      modifies this
      ensures Ok(State()) == old(BlockAll(State(), es))
    {
      var i := 0;
      while i < |es|
        invariant i <= |es|
        invariant BlockAll(State(), es[i..]) == old(BlockAll(State(), es))
      {
        BlockEvent(es[i], 1);
        assert es[i..][1..] == es[i + 1..];
        i := i + 1;
      }
    }

    method UnblockEvents(es: seq<EventId>)
      requires UnblockAll(State(), es).Ok?
      modifies this
      ensures Ok(State()) == old(UnblockAll(State(), es))
    {
      var i := 0;
      while i < |es|
        invariant i <= |es|
        invariant UnblockAll(State(), es[i..]) == old(UnblockAll(State(), es))
      {
        UnblockEvent(es[i]);
        assert es[i..][1..] == es[i + 1..];
        i := i + 1;
      }
    }

    // ---- Jobs (init/job.c) ----

    /** job_finished */
    method FinishJob(j: JobId, failed: bool)
      requires JobFinished(State(), j, failed).Ok?
      modifies this
      ensures Ok(State()) == old(JobFinished(State(), j, failed))
    {
      while jobs[j].blocking != []
        invariant LiveJob(State(), j) && JobFinished(State(), j, failed) == old(JobFinished(State(), j, failed))
        decreases |jobs[j].blocking|
      {
        var e := jobs[j].blocking[0];
        if failed { events := events[e := events[e].(failed := true)]; }
        UnblockEvent(e);
        jobs := jobs[j := jobs[j].(blocking := jobs[j].blocking[1..])];
      }
    }

    /** job_failed */
    method FailJob(j: JobId, p: Option<Process>, status: int)
      requires JobFailed(State(), j, p, status).Ok?
      modifies this
      ensures Ok(State()) == old(JobFailed(State(), j, p, status))
    {
      if !jobs[j].failed {
        jobs := jobs[j := jobs[j].(failed := true, failedProcess := p, exitStatus := status)];
        FinishJob(j, true);
      }
    }

    /** job_emit_event */
    method EmitJobEvent(j: JobId, blocks: bool, w: World)
      requires EmitEvent(State(), j, blocks, w).Ok?
      modifies this
      ensures Ok(State()) == old(EmitEvent(State(), j, blocks, w))
    {
      var job := jobs[j];
      var stop := job.state.Stopping? || job.state.Waiting?;
      NewEvent(Occurrence(EventName(job.state), w.eventEnv(classes[job.cls].config, job, stop)), if blocks then [j]
        else []);
    }

    /** job_class_reconsider */
    method ReconsiderClass(c: ClassId) returns (gone: bool)
      requires Reconsider(State(), c).Ok?
      modifies this
      ensures Ok(Reconsidered(State(), gone)) == old(Reconsider(State(), c))
    {
      var name := classes[c].config.name;
      var best := FindNamed(files, name);
      var current := FindNamed(registered, name);
      if current != Some(c) { return true; }
      if best == Some(c) || classes[c].instances != [] { return false; }
      registered := Without(registered, c);
      if best.Some? { registered := registered + [best.value]; }
      return true;
    }

    /** conf_select_job and job_class_get_registered: the first class of the list with the name */
    method FindNamed(ids: seq<ClassId>, name: string) returns (r: Option<ClassId>)
      ensures r == Named(State(), ids, name)
    {
      var i := 0;
      while i < |ids|
        invariant i <= |ids| && Named(State(), ids, name) == Named(State(), ids[i..], name)
      {
        if ids[i] < |classes| && classes[ids[i]].config.name == name { return Some(ids[i]); }
        i := i + 1;
      }
      return None;
    }

    /** nih_free of a class */
    method ReleaseClass(c: ClassId)
      requires FreeClass(State(), c).Ok?
      modifies this
      ensures Ok(State()) == old(FreeClass(State(), c))
    {
      assert c !in registered && classes[c].instances == [];
      UnblockEvents(HeldBy(classes[c].startOn));
      classes := classes[c := classes[c].(live := false, startOn := None)];
    }

    /** nih_free of a job */
    method ReleaseJob(j: JobId)
      requires FreeJob(State(), j).Ok?
      modifies this
      ensures Ok(State()) == old(FreeJob(State(), j))
    {
      var job := jobs[j];
      UnblockEvents(HeldBy(job.stopOn));
      jobs := jobs[j := job.(live := false, stopOn := None, procs := {}, setup := {})];
      classes := classes[job.cls := classes[job.cls].(instances := Without(classes[job.cls].instances, j))];
    }

    /** The end of an instance. */
    method RetireJob(j: JobId)
      requires Retire(State(), j).Ok?
      modifies this
      ensures Ok(State()) == old(Retire(State(), j))
    {
      var c := jobs[j].cls;
      ReleaseJob(j);
      var gone := ReconsiderClass(c);
      if classes[c].deleted && gone { ReleaseClass(c); }
    }

    /** What entering a state does outside the job. */
    method PerformEffect(j: JobId, effect: Effect, w: World)
      requires Perform(State(), j, effect, w).Ok?
      modifies this
      ensures Ok(State()) == old(Perform(State(), j, effect, w))
    {
      match effect
      case Nothing =>
      case EmitAndBlock =>
        var e := |events|;
        EmitJobEvent(j, true, w);
        jobs := jobs[j := jobs[j].(blocker := Some(e))];
      case EmitStarted =>
        EmitJobEvent(j, false, w);
      case EmitStartedAndFinish =>
        EmitJobEvent(j, false, w);
        FinishJob(j, false);
      case FinishOnly =>
        FinishJob(j, false);
      case EmitAndFree =>
        EmitJobEvent(j, false, w);
        FinishJob(j, false);
        RetireJob(j);
    }

    /** job_change_state: the loop goes on until the state it has entered keeps the job. */
    method MoveJob(j: JobId, state: JobState, w: World, luck: Oracle)
      requires ChangeState(State(), j, state, w, luck).Ok?
      modifies this
      ensures Ok(State()) == old(ChangeState(State(), j, state, w, luck))
    {
      hide Enter, Perform;
      if jobs[j].blocker.Some? { return; }
      ghost var before := State();
      var config := classes[jobs[j].cls].config;
      var target, chance := state, luck(j, |events|);
      while jobs[j].state != target
        invariant j < |jobs| && LiveJob(before, j)
        invariant if jobs[j].state == target then Ok(State()) == old(ChangeState(State(), j, state, w, luck))
                  else State() == SetJob(before, j, jobs[j]) && jobs[j].live
                       && Settle(config, jobs[j], target, chance) == Settle(config, before.jobs[j], state, chance)
        decreases if jobs[j].state == target then 0 else Rank(target)
      {
        EnterRanks(config, jobs[j], target, chance);
        EnterSets(config, jobs[j], target, chance);
        var e := Enter(config, jobs[j], target, chance).value;
        jobs := jobs[j := e.job];
        assert State() == SetJob(before, j, e.job);
        PerformStays(State(), j, e.effect, w);
        PerformEffect(j, e.effect, w);
        if e.effect.EmitAndFree? { return; }
        target := e.next;
      }
    }

    /** job_change_state (job, job_next_state (job)) */
    method StepJob(j: JobId, w: World, luck: Oracle)
      requires AdvanceJob(State(), j, w, luck).Ok?
      modifies this
      ensures Ok(State()) == old(AdvanceJob(State(), j, w, luck))
    {
      var d := NextState(classes[jobs[j].cls].config, jobs[j]).value;
      jobs := jobs[j := d.job];
      MoveJob(j, d.target, w, luck);
    }

    /** job_change_goal */
    method SetGoal(j: JobId, goal: Goal, w: World, luck: Oracle)
      requires ChangeGoal(State(), j, goal, w, luck).Ok?
      modifies this
      ensures Ok(State()) == old(ChangeGoal(State(), j, goal, w, luck))
    {
      if jobs[j].goal == goal { return; }
      jobs := jobs[j := jobs[j].(goal := goal)];
      if (goal.Start? && jobs[j].state.Waiting?) || (goal.Stop? && jobs[j].state.Running?) {
        StepJob(j, w, luck);
      }
    }

    // ---- Processes (init/job_process.c, init/job.c) ----

    /** job_process_terminated */
    method ReapProcess(j: JobId, p: Process, status: int, now: int, disabled: bool, w: World, luck: Oracle)
      requires Terminated(State(), j, p, status, now, disabled, w, luck).Ok?
      modifies this
      ensures Ok(State()) == old(Terminated(State(), j, p, status, now, disabled, w, luck))
    {
      hide Death, BeforeReaping, AfterReaping;
      var v := Death(classes[jobs[j].cls].config, jobs[j], p, status, now, disabled).value;
      NoteDeath(j, v, w, luck);
      jobs := jobs[j := Reaped(jobs[j], p)];
      ActOnDeath(j, p, status, v, w, luck);
    }

    /** The part of job_process_terminated before the pid is cleared. */
    method NoteDeath(j: JobId, v: Verdict, w: World, luck: Oracle)
      requires BeforeReaping(State(), j, v, w, luck).Ok?
      modifies this
      ensures Ok(State()) == old(BeforeReaping(State(), j, v, w, luck))
    {
      hide JobFailed, ChangeState, ChangeGoal;
      jobs := jobs[j := v.job];
      if v.runaway {
        FailJob(j, None, 0);
      } else if v.respawning && v.job.state.Spawned? {
        MoveJob(j, Stopping, w, luck);
      } else if v.respawning && !v.advance {
        SetGoal(j, Respawning, w, luck);
      }
    }

    /** The part of job_process_terminated after the pid is cleared. */
    method ActOnDeath(j: JobId, p: Process, status: int, v: Verdict, w: World, luck: Oracle)
      requires LiveJob(State(), j) && AfterReaping(State(), j, p, status, v, w, luck).Ok?
      modifies this
      ensures Ok(State()) == old(AfterReaping(State(), j, p, status, v, w, luck))
    {
      hide JobFailed, ChangeGoal, AdvanceJob;
      if v.failed { FailJob(j, Some(p), status); }
      if v.stop {
        SetGoal(j, Stop, w, luck);
        if jobs[j].state.Running? { return; }
      }
      if v.advance { StepJob(j, w, luck); }
    }

    /** job_child_error_handler */
    method SetupFails(j: JobId, p: Process, w: World, luck: Oracle)
      requires ChildError(State(), j, p, w, luck).Ok?
      modifies this
      ensures Ok(State()) == old(ChildError(State(), j, p, w, luck))
    {
      hide JobFailed, ChangeGoal, AdvanceJob;
      jobs := jobs[j := jobs[j].(procs := jobs[j].procs - {p}, setup := jobs[j].setup - {p})];
      if p.PostStartProcess? || p.PreStopProcess? {
        StepJob(j, w, luck);
      } else {
        FailJob(j, Some(p), -1);
        SetGoal(j, Stop, w, luck);
        if !p.SecurityProcess? { StepJob(j, w, luck); }
      }
    }

    /** job_process_close_handler */
    method SetupSucceeds(j: JobId, p: Process, w: World, luck: Oracle)
      requires ChildReady(State(), j, p, w, luck).Ok?
      modifies this
      ensures Ok(State()) == old(ChildReady(State(), j, p, w, luck))
    {
      hide AdvanceJob;
      var advance := jobs[j].state.Spawned? && classes[jobs[j].cls].config.expectsNothing && p.MainProcess?;
      jobs := jobs[j := jobs[j].(setup := jobs[j].setup - {p})];
      if advance { StepJob(j, w, luck); }
      assert !IsSpawningState(jobs[j].state);
    }

    /** job_process_kill_timer */
    method FireKillTimer(j: JobId)
      requires KillTimer(State(), j).Ok?
      modifies this
      ensures Ok(State()) == old(KillTimer(State(), j))
    {
      assert MainProcess in jobs[j].procs;
      jobs := jobs[j := jobs[j].(killTimer := false)];
    }

    // ---- Commands (init/job.c, init/job_class.c) ----

    /** job_start */
    method StartJob(j: JobId, startEnv: Option<Env>, w: World, luck: Oracle)
      requires StartInstance(State(), j, startEnv, w, luck).Ok?
      modifies this
      ensures Ok(State()) == old(StartInstance(State(), j, startEnv, w, luck))
    {
      hide JobFinished, ChangeGoal;
      if jobs[j].goal.Start? { return; }
      jobs := jobs[j := jobs[j].(startEnv := startEnv)];
      FinishJob(j, false);
      SetGoal(j, Start, w, luck);
    }

    /** job_stop */
    method StopJob(j: JobId, w: World, luck: Oracle)
      requires StopInstance(State(), j, w, luck).Ok?
      modifies this
      ensures Ok(State()) == old(StopInstance(State(), j, w, luck))
    {
      hide JobFinished, ChangeGoal;
      if jobs[j].goal.Stop? { return; }
      jobs := jobs[j := jobs[j].(stopEnv := None)];
      FinishJob(j, false);
      SetGoal(j, Stop, w, luck);
    }

    /** job_restart */
    method RestartJob(j: JobId, w: World, luck: Oracle)
      requires RestartInstance(State(), j, w, luck).Ok?
      modifies this
      ensures Ok(State()) == old(RestartInstance(State(), j, w, luck))
    {
      hide JobFinished, ChangeGoal;
      if jobs[j].goal.Stop? { return; }
      jobs := jobs[j := jobs[j].(startEnv := None, stopEnv := None)];
      FinishJob(j, false);
      SetGoal(j, Stop, w, luck);
      SetGoal(j, Start, w, luck);
    }

    /** The instance of the class with the name, made if it is not there. */
    method FindInstance(c: ClassId, name: string) returns (j: JobId)
      requires FindOrCreate(State(), c, name).Ok?
      modifies this
      ensures Ok(Found(State(), j)) == old(FindOrCreate(State(), c, name))
    {
      var js := classes[c].instances;
      var i := 0;
      while i < |js|
        invariant i <= |js| && State() == old(State())
        invariant InstanceNamed(State(), js, name) == InstanceNamed(State(), js[i..], name)
      {
        if js[i] < |jobs| && jobs[js[i]].name == name { return js[i]; }
        i := i + 1;
      }
      j := |jobs|;
      jobs := jobs + [NewJob(c, name, classes[c].config)];
      classes := classes[c := classes[c].(instances := classes[c].instances + [j])];
    }

    /** job_class_environment, in a new table */
    method ClassTable(config: Config, w: World) returns (table: Table)
      ensures fresh(table) && table.entries == ClassEnvironment(config, w)
    {
      table := new Table([]);
      table.Append(w.jobEnviron, true, w.outer);
      table.Append(config.env, true, w.outer);
    }

    /** job_class_start */
    method StartClass(c: ClassId, env: Env, w: World, luck: Oracle)
      requires StartFromClass(State(), c, env, w, luck).Ok?
      modifies this
      ensures Ok(State()) == old(StartFromClass(State(), c, env, w, luck))
    {
      hide FindOrCreate, StartInstance, ClassEnvironment, Appended;
      var config := classes[c].config;
      var table := ClassTable(config, w);
      table.Append(env, true, w.outer);
      var startEnv := table.entries;
      var name := Expansion.Expand(config.instance, startEnv);
      if name.Ok? {
        var j := FindInstance(c, name.value);
        StartJob(j, Some(startEnv), w, luck);
      }
    }

    // ---- Events (init/event.c, init/job_class.c) ----

    /** event_operator_events */
    method BlockFor(j: JobId, t: Cond)
      requires BlockGathered(State(), j, t).Ok?
      modifies this
      ensures Ok(State()) == old(BlockGathered(State(), j, t))
    {
      hide BlockAll;
      jobs := jobs[j := jobs[j].(blocking := jobs[j].blocking + Gathered(t))];
      BlockEvents(Gathered(t));
    }

    /** The event offered to the stop condition of one job. */
    method OfferToJob(e: EventId, j: JobId, w: World, luck: Oracle)
      requires OfferStop(State(), e, j, w, luck).Ok?
      modifies this
      ensures Ok(State()) == old(OfferStop(State(), e, j, w, luck))
    {
      hide StopByCondition, Handle, Taken;
      if jobs[j].stopOn.None? { return; }
      var t0, hit := jobs[j].stopOn.value, HitBy(w, events[e].what, jobs[j].env);
      var t, taken := Handle(t0, e, hit), Taken(t0, hit);
      jobs := jobs[j := jobs[j].(stopOn := Some(t))];
      BlockEvent(e, taken);
      if taken > 0 && t.value { StopOnCondition(j, t, w, luck); }
    }

    /** The stop condition has become true. */
    method StopOnCondition(j: JobId, t: Cond, w: World, luck: Oracle)
      requires StopByCondition(State(), j, t, w, luck).Ok?
      modifies this
      ensures Ok(State()) == old(StopByCondition(State(), j, t, w, luck))
    {
      hide JobFinished, BlockGathered, ChangeGoal, UnblockAll, Collected, Sound;
      var stopping := !jobs[j].goal.Stop?;
      if stopping {
        var table := new Table([]);
        Collect(table, t, Described(events), "UPSTART_STOP_EVENTS", w.outer);
        jobs := jobs[j := jobs[j].(stopEnv := Some(table.entries))];
        FinishJob(j, false);
      }
      if !jobs[j].state.Waiting? { BlockFor(j, t); }
      if stopping { SetGoal(j, Stop, w, luck); }
      var now := jobs[j].stopOn.value;
      jobs := jobs[j := jobs[j].(stopOn := Some(Reset(now)))];
      UnblockEvents(Held(now));
    }

    /** event_operator_reset of a start condition */
    method ResetClass(c: ClassId)
      requires ResetStart(State(), c).Ok?
      modifies this
      ensures Ok(State()) == old(ResetStart(State(), c))
    {
      hide UnblockAll;
      if classes[c].startOn.None? { return; }
      var t := classes[c].startOn.value;
      classes := classes[c := classes[c].(startOn := Some(Reset(t)))];
      UnblockEvents(Held(t));
    }

    /** job_class_induct_job */
    method InductJob(c: ClassId, t: Cond, w: World, luck: Oracle) returns (success: bool)
      requires Induct(State(), c, t, w, luck).Ok?
      modifies this
      ensures Ok(Inducted(State(), success)) == old(Induct(State(), c, t, w, luck))
    {
      hide FindOrCreate, JobFinished, BlockGathered, ChangeGoal, ResetStart, Collected, ClassEnvironment, Sound;
      var config := classes[c].config;
      var table := ClassTable(config, w);
      Collect(table, t, Described(events), "UPSTART_EVENTS", w.outer);
      var env := table.entries;
      var name := Expansion.Expand(config.instance, env);
      success := name.Ok?;
      if success {
        var j := FindInstance(c, name.value);
        StartOnCondition(c, j, t, env, w, luck);
      }
      ResetClass(c);
    }

    /** The instance that the start condition is for. */
    method StartOnCondition(c: ClassId, j: JobId, t: Cond, env: Env, w: World, luck: Oracle)
      requires StartByCondition(State(), c, j, t, env, w, luck).Ok?
      modifies this
      ensures Ok(State()) == old(StartByCondition(State(), c, j, t, env, w, luck))
    {
      hide JobFinished, BlockGathered, ChangeGoal;
      var starting, task := !jobs[j].goal.Start?, classes[c].config.task;
      if starting {
        jobs := jobs[j := jobs[j].(startEnv := Some(env))];
        FinishJob(j, false);
      }
      if task || !jobs[j].state.Running? { BlockFor(j, t); }
      if starting { SetGoal(j, Start, w, luck); }
    }

    /** The event offered to the start condition of one class. */
    method OfferToClass(e: EventId, c: ClassId, w: World, luck: Oracle) returns (success: bool)
      requires OfferStart(State(), e, c, w, luck).Ok?
      modifies this
      ensures Ok(Inducted(State(), success)) == old(OfferStart(State(), e, c, w, luck))
    {
      hide Induct, Handle, Taken;
      if classes[c].startOn.None? { return true; }
      var t0, hit := classes[c].startOn.value, HitBy(w, events[e].what, []);
      var t, taken := Handle(t0, e, hit), Taken(t0, hit);
      classes := classes[c := classes[c].(startOn := Some(t))];
      BlockEvent(e, taken);
      success := true;
      if taken > 0 && t.value { success := InductJob(c, t, w, luck); }
    }

    /** The inner loop of event_pending_handle_jobs, over the instances of a class. */
    method OfferToInstances(e: EventId, js: seq<JobId>, w: World, luck: Oracle)
      requires OfferStops(State(), e, js, w, luck).Ok?
      modifies this
      ensures Ok(State()) == old(OfferStops(State(), e, js, w, luck))
    {
      hide OfferStop;
      var i := 0;
      while i < |js|
        invariant i <= |js| && OfferStops(State(), e, js[i..], w, luck) == old(OfferStops(State(), e, js, w, luck))
      {
        assert js[i..][1..] == js[i + 1..];
        OfferToJob(e, js[i], w, luck);
        i := i + 1;
      }
    }

    /** event_pending_handle_jobs */
    method OfferEvent(e: EventId, w: World, luck: Oracle)
      requires OfferAll(State(), e, registered, w, luck).Ok?
      modifies this
      ensures Ok(State()) == old(OfferAll(State(), e, registered, w, luck))
    {
      hide OfferStops, OfferStart;
      var cs, i := registered, 0;
      while i < |cs|
        invariant i <= |cs| && OfferAll(State(), e, cs[i..], w, luck) == old(OfferAll(State(), e, registered, w, luck))
      {
        assert cs[i..][1..] == cs[i + 1..];
        OfferToInstances(e, classes[cs[i]].instances, w, luck);
        var success := OfferToClass(e, cs[i], w, luck);
        if !success { return; }
        i := i + 1;
      }
    }

    /** event_pending */
    method HandlePending(e: EventId, w: World, luck: Oracle)
      requires EventPending(State(), e, w, luck).Ok?
      modifies this
      ensures Ok(State()) == old(EventPending(State(), e, w, luck))
    {
      hide OfferAll;
      assert events[e].progress.Pending?;
      events := events[e := events[e].(progress := Handling)];
      history := history + [Offered(e)];
      OfferEvent(e, w, luck);
    }

    /** event_finished */
    method FinishEvent(e: EventId, w: World, luck: Oracle)
      requires EventFinished(State(), e, w, luck).Ok?
      modifies this
      ensures Ok(State()) == old(EventFinished(State(), e, w, luck))
    {
      hide AdvanceJob, Without;
      WakeJobs(e, w, luck);
      assert events[e].blockers == 0;
      var what := events[e].what;
      if events[e].failed && !NamesFailure(what.name) {
        history := history + [Succeeded(e, |events|)];
        NewEvent(Occurrence(what.name + "/failed", what.env), []);
      }
      events := events[e := events[e].(live := false)];
      queue := Without(queue, e);
      history := history + [Freed(e)];
    }

    /** The loop of event_finished over the jobs that wait for the event. */
    method WakeJobs(e: EventId, w: World, luck: Oracle)
      requires e < |events| && WakeAll(State(), e, w, luck, |events[e].blocking|).Ok?
      modifies this
      ensures Ok(State()) == old(WakeAll(State(), e, w, luck, |events[e].blocking|))
    {
      hide AdvanceJob;
      ghost var n: nat := |events[e].blocking|;
      while events[e].blocking != []
        invariant LiveEvent(State(), e)
        invariant WakeAll(State(), e, w, luck, n) == old(WakeAll(State(), e, w, luck, |events[e].blocking|))
        decreases n
      {
        var j := events[e].blocking[0];
        events := events[e := events[e].(blocking := events[e].blocking[1..])];
        history := history + [Woken(e, j)];
        jobs := jobs[j := jobs[j].(blocker := None)];
        StepJob(j, w, luck);
        n := n - 1;
      }
    }

    /** event_poll, for at most so many turns of its loops */
    method PollEvents(turns: nat, w: World, luck: Oracle) returns (done: bool)
      requires Poll(State(), 0, false, turns, w, luck).Ok?
      modifies this
      ensures Ok(Polled(State(), done)) == old(Poll(State(), 0, false, turns, w, luck))
    {
      hide EventPending, EventFinished;
      var left, i, again := turns, 0, false;
      while left > 0
        invariant Poll(State(), i, again, left, w, luck) == old(Poll(State(), 0, false, turns, w, luck))
      {
        if i >= |queue| {
          if !again { return true; }
          i, again := 0, false;
        } else {
          var e := queue[i];
          var pending := events[e].progress.Pending?;
          if pending { HandlePending(e, w, luck); }
          if !events[e].progress.Finished? && events[e].blockers > 0 {
            i, again := i + 1, again || pending;
          } else {
            events := events[e := events[e].(progress := Finished)];
            FinishEvent(e, w, luck);
            again := true;
          }
        }
        left := left - 1;
      }
      return false;
    }

    // ---- Configuration (init/conf.c, init/job_class.c) ----

    /** job_class_event_block */
    method HandOver(old_: ClassId, new_: ClassId, w: World)
      requires EventBlock(State(), old_, new_, w).Ok?
      modifies this
      ensures Ok(State()) == old(EventBlock(State(), old_, new_, w))
    {
      hide Absorb, Taken, Held;
      if classes[old_].startOn.None? || classes[new_].startOn.None? || classes[old_].instances != [] { return; }
      var es := Held(classes[old_].startOn.value);
      var i := 0;
      while i < |es|
        invariant i <= |es| && Ok(State()) == TransferBlocks(old(State()), new_, es[..i], w)
      {
        TransferPrefix(old(State()), new_, es, i + 1, w);
        assert es[..i + 1][..i] == es[..i];
        var e, t := es[i], classes[new_].startOn.value;
        var hit := HitBy(w, events[e].what, []);
        SameAnswers(t, e, Of(StartMatches(State(), w), e), hit);
        var taken := Taken(t, hit);
        classes := classes[new_ := classes[new_].(startOn := Some(Absorb(t, e, hit)))];
        BlockEvent(e, taken);
        i := i + 1;
      }
      assert es[..i] == es;
    }

    /** job_class_consider */
    method ConsiderClass(c: ClassId, w: World)
      requires Consider(State(), c, w).Ok?
      modifies this
      ensures Ok(State()) == old(Consider(State(), c, w))
    {
      hide EventBlock, ResetStart, Without;
      var name := classes[c].config.name;
      var best := FindNamed(files, name);
      var current := FindNamed(registered, name);
      assert best.Some?;
      if current == best { return; }
      if current.Some? {
        HandOver(current.value, best.value, w);
        if classes[current.value].instances != [] {
          ResetClass(best.value);
          return;
        }
        registered := Without(registered, current.value);
      }
      registered := registered + [best.value];
    }

    /** conf_file_destroy */
    method DestroyFile(c: ClassId)
      requires Destroy(State(), c).Ok?
      modifies this
      ensures Ok(State()) == old(Destroy(State(), c))
    {
      hide Reconsider, FreeClass;
      classes := classes[c := classes[c].(deleted := true)];
      var gone := ReconsiderClass(c);
      if gone { ReleaseClass(c); }
    }

    /** conf_reload_path for a new path */
    method Load(at: nat, config: Config, startOn: Option<Cond>, w: World)
      requires LoadFile(State(), at, config, startOn, w).Ok?
      modifies this
      ensures Ok(State()) == old(LoadFile(State(), at, config, startOn, w))
    {
      hide Consider;
      var c := |classes|;
      var i := if at <= |files| then at else |files|;
      classes := classes + [JobClass(true, config, if startOn.None? then None
        else Some(Fresh(startOn.value)), [], false)];
      files := files[..i] + [c] + files[i..];
      ConsiderClass(c, w);
    }

    /** conf_reload_path for a known path: the new class is considered before the old file is released. */
    method Reload(c: ClassId, config: Config, startOn: Option<Cond>, w: World)
      requires ReloadFile(State(), c, config, startOn, w).Ok?
      modifies this
      ensures Ok(State()) == old(ReloadFile(State(), c, config, startOn, w))
    {
      hide LoadFile, Destroy, Without, IndexIn;
      var at, name := IndexIn(files, c), classes[c].config.name;
      files := Without(files, c);
      Load(at, config.(name := name), startOn, w);
      DestroyFile(c);
    }

    /** conf_reload_path for a path that cannot be read any more */
    method Unload(c: ClassId)
      requires RemoveFile(State(), c).Ok?
      modifies this
      ensures Ok(State()) == old(RemoveFile(State(), c))
    {
      hide Destroy, Without;
      files := Without(files, c);
      DestroyFile(c);
    }

    // ---- The main loop ----

    /** One input. In a safe state nothing can go wrong, and the state is safe again. */
    method Serve(input: Input, w: World)
      requires Safe(State(), w)
      modifies this
      ensures Ok(State()) == old(Step(State(), input, w)) && Safe(State(), w)
    {
      hide Safe, Poll, StartInstance, StopInstance, RestartInstance, StartFromClass, ChildReady, ChildError, AdvanceJob,
        Terminated,
        KillTimer, LoadFile, ReloadFile, RemoveFile, Swapped;
      StepSafe(State(), input, w);
      var possible := Possible(Sys(jobs, classes, events, queue, registered, files, []), input);
      assert possible == Possible(State(), input);
      if !possible { return; }
      match input
      case Emit(what) => NewEvent(what, []);
      case PollEvents(turns, luck) => var _ := PollEvents(turns, w, luck);
      case StartCommand(j, luck) => StartJob(j, None, w, luck);
      case StopCommand(j, luck) => StopJob(j, w, luck);
      case RestartCommand(j, luck) => RestartJob(j, w, luck);
      case StartClassCommand(c, env, luck) => StartClass(c, env, w, luck);
      case SetupSucceeded(j, p, luck) => SetupSucceeds(j, p, w, luck);
      case SetupFailed(j, p, luck) => SetupFails(j, p, w, luck);
      case MainReady(j, luck) => StepJob(j, w, luck);
      case Died(j, p, status, now, disabled, luck) => ReapProcess(j, p, status, now, disabled, w, luck);
      case KillTimerFired(j) => FireKillTimer(j);
      case FileAppeared(at, config, startOn) => Load(at, config, startOn, w);
      case FileChanged(c, config, startOn) => Reload(c, config, startOn, w);
      case FileVanished(c) => Unload(c);
      case ClassesReordered(i) => registered := Swapped(registered, i);
      case InstancesReordered(c,
        i) => classes := classes[c := classes[c].(instances := Swapped(classes[c].instances, i))];
    }

    /** The inputs of a whole run, one after the other. */
    method ServeAll(inputs: seq<Input>, w: World)
      requires State() == INITIAL
      modifies this
      ensures Run(inputs, w) == Ok(State()) && Safe(State(), w)
    {
      hide Safe, Step;
      InitialSafe(w);
      var i := 0;
      while i < |inputs|
        invariant i <= |inputs| && Run(inputs[..i], w) == Ok(State()) && Safe(State(), w)
      {
        assert inputs[..i + 1][..i] == inputs[..i];
        Serve(inputs[i], w);
        i := i + 1;
      }
      assert inputs[..i] == inputs;
    }
  }

  /** What has been handed over before the last event. */
  lemma {:induction false} TransferPrefix(s: Sys, c: ClassId, es: seq<EventId>, n: nat, w: World)
    requires n <= |es| && TransferBlocks(s, c, es, w).Ok?
    ensures TransferBlocks(s, c, es[..n], w).Ok?
    decreases |es|
  {
    if n == |es| {
      assert es[..n] == es;
    } else {
      var init := es[..|es| - 1];
      assert init[..n] == es[..n];
      TransferPrefix(s, c, init, n, w);
    }
  }
}

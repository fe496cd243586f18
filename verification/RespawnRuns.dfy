/** The respawn limit over whole runs: only the death of a main process touches the window of its job. */
module RespawnRuns {
  import opened Wrappers
  import opened Environ
  import opened Condition
  import opened ConditionEnviron
  import opened Respawn
  import opened JobMachine
  import opened Supervisor
  import opened SupervisorSteps
  import opened Invariant
  import opened ConfigSteps
  import opened SupervisorRuns
  import opened Guarantees
  import Expansion

  // ---- What a step leaves alone ----

  /** Jobs keep their windows and classes, new ones have an empty window, and classes keep their configuration. */
  ghost predicate Framed(s: Sys, r: Sys) {
    && |s.jobs| <= |r.jobs| && |s.classes| <= |r.classes|
    && (forall k :: 0 <= k < |s.jobs| ==> r.jobs[k].window == s.jobs[k].window && r.jobs[k].cls == s.jobs[k].cls)
    && (forall k :: |s.jobs| <= k < |r.jobs| ==> r.jobs[k].window == Window(0, 0) && r.jobs[k].cls < |r.classes|)
    && (forall c :: 0 <= c < |s.classes| ==> r.classes[c].config == s.classes[c].config)
  }

  lemma FramedChain(a: Sys, b: Sys, c: Sys)
    requires Framed(a, b) && Framed(b, c)
    ensures Framed(a, c)
  {
  }

  lemma SettleFramed(config: Config, job: Job, target: JobState, luck: Luck)
    requires Settle(config, job, target, luck).Ok?
    ensures var r := Settle(config, job, target, luck).value.job; r.window == job.window && r.cls == job.cls
    decreases Rank(target)
  {
    hide Enter;
    EnterFramed(config, job, target, luck);
    EnterRanks(config, job, target, luck);
    var e := Enter(config, job, target, luck).value;
    if e.next != target { SettleFramed(config, e.job, e.next, luck); }
  }

  lemma EnterFramed(config: Config, job: Job, target: JobState, luck: Luck)
    requires Enter(config, job, target, luck).Ok?
    ensures var r := Enter(config, job, target, luck).value.job; r.window == job.window && r.cls == job.cls
  {
  }

  lemma RetireFramed(s: Sys, j: JobId)
    requires Retire(s, j).Ok?
    ensures Framed(s, Retire(s, j).value)
  {
    hide UnblockAll, Named, Without;
  }

  lemma PerformFramed(s: Sys, j: JobId, effect: Effect, w: World)
    requires Perform(s, j, effect, w).Ok?
    ensures Framed(s, Perform(s, j, effect, w).value)
  {
    hide JobFinished, Retire;
    if effect.EmitAndFree? {
      var s2 := JobFinished(EmitEvent(s, j, false, w).value, j, false).value;
      RetireFramed(s2, j);
      FramedChain(s, s2, Retire(s2, j).value);
    }
  }

  lemma ChangeStateFramed(s: Sys, j: JobId, target: JobState, w: World, luck: Oracle)
    requires ChangeState(s, j, target, w, luck).Ok?
    ensures Framed(s, ChangeState(s, j, target, w, luck).value)
  {
    hide Settle, Perform;
    var job := s.jobs[j];
    if job.state != target && job.blocker.None? {
      var config, chance := s.classes[job.cls].config, luck(j, |s.events|);
      SettleFramed(config, job, target, chance);
      var rest := Settle(config, job, target, chance).value;
      PerformFramed(SetJob(s, j, rest.job), j, rest.effect, w);
      FramedChain(s, SetJob(s, j, rest.job), Perform(SetJob(s, j, rest.job), j, rest.effect, w).value);
    }
  }

  lemma AdvanceFramed(s: Sys, j: JobId, w: World, luck: Oracle)
    requires AdvanceJob(s, j, w, luck).Ok?
    ensures Framed(s, AdvanceJob(s, j, w, luck).value)
  {
    hide ChangeState;
    var d := NextState(s.classes[s.jobs[j].cls].config, s.jobs[j]).value;
    ChangeStateFramed(SetJob(s, j, d.job), j, d.target, w, luck);
    FramedChain(s, SetJob(s, j, d.job), ChangeState(SetJob(s, j, d.job), j, d.target, w, luck).value);
  }

  lemma GoalFramed(s: Sys, j: JobId, goal: Goal, w: World, luck: Oracle)
    requires ChangeGoal(s, j, goal, w, luck).Ok?
    ensures Framed(s, ChangeGoal(s, j, goal, w, luck).value)
  {
    hide AdvanceJob;
    var s1 := SetJob(s, j, s.jobs[j].(goal := goal));
    if s.jobs[j].goal != goal
      && ((goal.Start? && s.jobs[j].state.Waiting?) || (goal.Stop? && s.jobs[j].state.Running?)) {
      AdvanceFramed(s1, j, w, luck);
      FramedChain(s, s1, AdvanceJob(s1, j, w, luck).value);
    }
  }

  /** job_finished, after a change to the job that leaves its window alone. */
  lemma FinishFramed(s: Sys, j: JobId, job: Job)
    requires j < |s.jobs| && job.window == s.jobs[j].window && job.cls == s.jobs[j].cls
    requires JobFinished(SetJob(s, j, job), j, false).Ok?
    ensures Framed(s, JobFinished(SetJob(s, j, job), j, false).value)
  {
    hide JobFinished;
  }

  lemma FailFramed(s: Sys, j: JobId, p: Option<Process>, status: int)
    requires JobFailed(s, j, p, status).Ok?
    ensures Framed(s, JobFailed(s, j, p, status).value)
  {
    hide JobFinished;
  }

  // ---- Commands ----

  lemma StartFramed(s: Sys, j: JobId, startEnv: Option<Env>, w: World, luck: Oracle)
    requires StartInstance(s, j, startEnv, w, luck).Ok?
    ensures Framed(s, StartInstance(s, j, startEnv, w, luck).value)
  {
    hide JobFinished, ChangeGoal;
    if !s.jobs[j].goal.Start? {
      FinishFramed(s, j, s.jobs[j].(startEnv := startEnv));
      var s1 := JobFinished(SetJob(s, j, s.jobs[j].(startEnv := startEnv)), j, false).value;
      GoalFramed(s1, j, Start, w, luck);
      FramedChain(s, s1, ChangeGoal(s1, j, Start, w, luck).value);
    }
  }

  lemma StopFramed(s: Sys, j: JobId, w: World, luck: Oracle)
    requires StopInstance(s, j, w, luck).Ok?
    ensures Framed(s, StopInstance(s, j, w, luck).value)
  {
    hide JobFinished, ChangeGoal;
    if !s.jobs[j].goal.Stop? {
      FinishFramed(s, j, s.jobs[j].(stopEnv := None));
      var s1 := JobFinished(SetJob(s, j, s.jobs[j].(stopEnv := None)), j, false).value;
      GoalFramed(s1, j, Stop, w, luck);
      FramedChain(s, s1, ChangeGoal(s1, j, Stop, w, luck).value);
    }
  }

  lemma RestartFramed(s: Sys, j: JobId, w: World, luck: Oracle)
    requires RestartInstance(s, j, w, luck).Ok?
    ensures Framed(s, RestartInstance(s, j, w, luck).value)
  {
    hide JobFinished, ChangeGoal;
    if !s.jobs[j].goal.Stop? {
      var job := s.jobs[j].(startEnv := None, stopEnv := None);
      FinishFramed(s, j, job);
      var s1 := JobFinished(SetJob(s, j, job), j, false).value;
      GoalFramed(s1, j, Stop, w, luck);
      var s2 := ChangeGoal(s1, j, Stop, w, luck).value;
      GoalFramed(s2, j, Start, w, luck);
      FramedChain(s, s1, s2);
      FramedChain(s, s2, ChangeGoal(s2, j, Start, w, luck).value);
    }
  }

  lemma FoundFramed(s: Sys, c: ClassId, name: string)
    requires FindOrCreate(s, c, name).Ok?
    ensures Framed(s, FindOrCreate(s, c, name).value.sys)
  {
    hide InstanceNamed;
  }

  lemma StartClassFramed(s: Sys, c: ClassId, env: Env, w: World, luck: Oracle)
    requires StartFromClass(s, c, env, w, luck).Ok?
    ensures Framed(s, StartFromClass(s, c, env, w, luck).value)
  {
    hide FindOrCreate, StartInstance, ClassEnvironment, Appended, Expansion.Expand;
    var config := s.classes[c].config;
    var startEnv := Appended(ClassEnvironment(config, w), env, true, w.outer);
    var name := Expansion.Expand(config.instance, startEnv);
    if name.Ok? {
      FoundFramed(s, c, name.value);
      var f := FindOrCreate(s, c, name.value).value;
      StartFramed(f.sys, f.job, Some(startEnv), w, luck);
      FramedChain(s, f.sys, StartInstance(f.sys, f.job, Some(startEnv), w, luck).value);
    }
  }

  // ---- Events ----

  lemma BlockGatheredFramed(s: Sys, j: JobId, t: Cond)
    requires BlockGathered(s, j, t).Ok?
    ensures Framed(s, BlockGathered(s, j, t).value)
  {
    hide BlockAll, Sound, Gathered;
  }

  lemma ResetStopFramed(s: Sys, j: JobId)
    requires ResetStop(s, j).Ok?
    ensures Framed(s, ResetStop(s, j).value)
  {
    hide UnblockAll, Reset, Held;
  }

  lemma StopByConditionFramed(s: Sys, j: JobId, t: Cond, w: World, luck: Oracle)
    requires StopByCondition(s, j, t, w, luck).Ok?
    ensures Framed(s, StopByCondition(s, j, t, w, luck).value)
  {
    hide JobFinished, BlockGathered, ResetStop, ChangeGoal, Collected, Sound;
    var stopping := !s.jobs[j].goal.Stop?;
    var stopEnv := Some(Collected([], t, Described(s.events), "UPSTART_STOP_EVENTS", w.outer));
    var s1 := s;
    if stopping {
      FinishFramed(s, j, s.jobs[j].(stopEnv := stopEnv));
      s1 := JobFinished(SetJob(s, j, s.jobs[j].(stopEnv := stopEnv)), j, false).value;
    }
    var s2 := s1;
    if !s1.jobs[j].state.Waiting? {
      BlockGatheredFramed(s1, j, t);
      s2 := BlockGathered(s1, j, t).value;
    }
    FramedChain(s, s1, s2);
    var s3 := s2;
    if stopping {
      GoalFramed(s2, j, Stop, w, luck);
      s3 := ChangeGoal(s2, j, Stop, w, luck).value;
    }
    FramedChain(s, s2, s3);
    ResetStopFramed(s3, j);
    FramedChain(s, s3, ResetStop(s3, j).value);
  }

  lemma OfferStopFramed(s: Sys, e: EventId, j: JobId, w: World, luck: Oracle)
    requires OfferStop(s, e, j, w, luck).Ok?
    ensures Framed(s, OfferStop(s, e, j, w, luck).value)
  {
    hide StopByCondition, Handle, Taken;
    if s.jobs[j].stopOn.Some? {
      var hit := HitBy(w, s.events[e].what, s.jobs[j].env);
      var t := Handle(s.jobs[j].stopOn.value, e, hit);
      var s1 := Block(SetJob(s, j, s.jobs[j].(stopOn := Some(t))), e, Taken(s.jobs[j].stopOn.value, hit)).value;
      if Taken(s.jobs[j].stopOn.value, hit) > 0 && t.value {
        StopByConditionFramed(s1, j, t, w, luck);
        FramedChain(s, s1, StopByCondition(s1, j, t, w, luck).value);
      }
    }
  }

  lemma {:induction false} OfferStopsFramed(s: Sys, e: EventId, js: seq<JobId>, w: World, luck: Oracle)
    requires OfferStops(s, e, js, w, luck).Ok?
    ensures Framed(s, OfferStops(s, e, js, w, luck).value)
    decreases |js|
  {
    hide OfferStop;
    if js != [] {
      var s1 := OfferStop(s, e, js[0], w, luck).value;
      OfferStopFramed(s, e, js[0], w, luck);
      OfferStopsFramed(s1, e, js[1..], w, luck);
      FramedChain(s, s1, OfferStops(s1, e, js[1..], w, luck).value);
    }
  }

  lemma StartByConditionFramed(s: Sys, c: ClassId, j: JobId, t: Cond, env: Env, w: World, luck: Oracle)
    requires StartByCondition(s, c, j, t, env, w, luck).Ok?
    ensures Framed(s, StartByCondition(s, c, j, t, env, w, luck).value)
  {
    hide JobFinished, BlockAll, ChangeGoal, Sound, Gathered;
    var starting := !s.jobs[j].goal.Start?;
    var s1 := s;
    if starting { s1 := JobFinished(SetJob(s, j, s.jobs[j].(startEnv := Some(env))), j, false).value; }
    var s2 := if s.classes[c].config.task || !s1.jobs[j].state.Running? then BlockGathered(s1, j, t).value else s1;
    assert Framed(s, s2);
    if starting {
      GoalFramed(s2, j, Start, w, luck);
      FramedChain(s, s2, ChangeGoal(s2, j, Start, w, luck).value);
    }
  }

  lemma InductFramed(s: Sys, c: ClassId, t: Cond, w: World, luck: Oracle)
    requires Induct(s, c, t, w, luck).Ok?
    ensures Framed(s, Induct(s, c, t, w, luck).value.sys)
  {
    hide FindOrCreate, StartByCondition, ResetStart, Collected, ClassEnvironment, Sound, Expansion.Expand;
    var config := s.classes[c].config;
    var env := Collected(ClassEnvironment(config, w), t, Described(s.events), "UPSTART_EVENTS", w.outer);
    var name := Expansion.Expand(config.instance, env);
    var s1 := s;
    if name.Ok? {
      FoundFramed(s, c, name.value);
      var f := FindOrCreate(s, c, name.value).value;
      StartByConditionFramed(f.sys, c, f.job, t, env, w, luck);
      s1 := StartByCondition(f.sys, c, f.job, t, env, w, luck).value;
      FramedChain(s, f.sys, s1);
    }
    ResetStartFramed(s1, c);
    FramedChain(s, s1, ResetStart(s1, c).value);
  }

  lemma ResetStartFramed(s: Sys, c: ClassId)
    requires ResetStart(s, c).Ok?
    ensures Framed(s, ResetStart(s, c).value)
  {
    hide UnblockAll;
  }

  lemma OfferStartFramed(s: Sys, e: EventId, c: ClassId, w: World, luck: Oracle)
    requires OfferStart(s, e, c, w, luck).Ok?
    ensures Framed(s, OfferStart(s, e, c, w, luck).value.sys)
  {
    hide Induct, Handle, Taken;
    if s.classes[c].startOn.Some? {
      var hit := HitBy(w, s.events[e].what, []);
      var t := Handle(s.classes[c].startOn.value, e, hit);
      var s1 := Block(SetClass(s, c, s.classes[c].(startOn := Some(t))), e,
        Taken(s.classes[c].startOn.value, hit)).value;
      if Taken(s.classes[c].startOn.value, hit) > 0 && t.value {
        InductFramed(s1, c, t, w, luck);
        FramedChain(s, s1, Induct(s1, c, t, w, luck).value.sys);
      }
    }
  }

  lemma {:induction false} OfferAllFramed(s: Sys, e: EventId, cs: seq<ClassId>, w: World, luck: Oracle)
    requires OfferAll(s, e, cs, w, luck).Ok?
    ensures Framed(s, OfferAll(s, e, cs, w, luck).value)
    decreases |cs|
  {
    hide OfferStops, OfferStart;
    if cs != [] {
      OfferStopsFramed(s, e, s.classes[cs[0]].instances, w, luck);
      var s1 := OfferStops(s, e, s.classes[cs[0]].instances, w, luck).value;
      OfferStartFramed(s1, e, cs[0], w, luck);
      var i := OfferStart(s1, e, cs[0], w, luck).value;
      FramedChain(s, s1, i.sys);
      if i.success {
        OfferAllFramed(i.sys, e, cs[1..], w, luck);
        FramedChain(s, i.sys, OfferAll(i.sys, e, cs[1..], w, luck).value);
      }
    }
  }

  lemma {:induction false} WakeAllFramed(s: Sys, e: EventId, w: World, luck: Oracle, n: nat)
    requires WakeAll(s, e, w, luck, n).Ok?
    ensures Framed(s, WakeAll(s, e, w, luck, n).value)
    decreases n
  {
    hide AdvanceJob;
    if s.events[e].blocking != [] {
      var j := s.events[e].blocking[0];
      var s1 := Noted(SetEvent(s, e, s.events[e].(blocking := s.events[e].blocking[1..])), Woken(e, j));
      var s2 := SetJob(s1, j, s1.jobs[j].(blocker := None));
      AdvanceFramed(s2, j, w, luck);
      var s3 := AdvanceJob(s2, j, w, luck).value;
      WakeAllFramed(s3, e, w, luck, n - 1);
      FramedChain(s, s2, s3);
      FramedChain(s, s3, WakeAll(s3, e, w, luck, n - 1).value);
    }
  }

  lemma EventFinishedFramed(s: Sys, e: EventId, w: World, luck: Oracle)
    requires EventFinished(s, e, w, luck).Ok?
    ensures Framed(s, EventFinished(s, e, w, luck).value)
  {
    hide WakeAll, Without;
    WakeAllFramed(s, e, w, luck, |s.events[e].blocking|);
  }

  lemma EventPendingFramed(s: Sys, e: EventId, w: World, luck: Oracle)
    requires EventPending(s, e, w, luck).Ok?
    ensures Framed(s, EventPending(s, e, w, luck).value)
  {
    hide OfferAll;
    var s1 := Noted(SetEvent(s, e, s.events[e].(progress := Handling)), Offered(e));
    OfferAllFramed(s1, e, s.registered, w, luck);
    FramedChain(s, s1, OfferAll(s1, e, s.registered, w, luck).value);
  }

  lemma {:induction false} PollFramed(s: Sys, i: nat, again: bool, turns: nat, w: World, luck: Oracle)
    requires Poll(s, i, again, turns, w, luck).Ok?
    ensures Framed(s, Poll(s, i, again, turns, w, luck).value.sys)
    decreases turns
  {
    hide EventPending, EventFinished;
    if turns > 0 && i >= |s.queue| && again {
      PollFramed(s, 0, false, turns - 1, w, luck);
    } else if turns > 0 && i < |s.queue| {
      var e := s.queue[i];
      var pending := s.events[e].progress.Pending?;
      var s1 := s;
      if pending {
        EventPendingFramed(s, e, w, luck);
        s1 := EventPending(s, e, w, luck).value;
      }
      if !s1.events[e].progress.Finished? && s1.events[e].blockers > 0 {
        PollFramed(s1, i + 1, again || pending, turns - 1, w, luck);
        FramedChain(s, s1, Poll(s1, i + 1, again || pending, turns - 1, w, luck).value.sys);
      } else {
        var s2 := SetEvent(s1, e, s1.events[e].(progress := Finished));
        EventFinishedFramed(s2, e, w, luck);
        var s3 := EventFinished(s2, e, w, luck).value;
        PollFramed(s3, i, true, turns - 1, w, luck);
        FramedChain(s, s2, s3);
        FramedChain(s, s3, Poll(s3, i, true, turns - 1, w, luck).value.sys);
      }
    }
  }

  // ---- Reports ----

  lemma BeforeFramed(s: Sys, j: JobId, v: Verdict, w: World, luck: Oracle)
    requires BeforeReaping(s, j, v, w, luck).Ok?
    ensures j < |s.jobs| && Framed(SetJob(s, j, v.job), BeforeReaping(s, j, v, w, luck).value)
  {
    hide JobFailed, ChangeState, ChangeGoal;
    var s1 := SetJob(s, j, v.job);
    if v.runaway {
      FailFramed(s1, j, None, 0);
    } else if v.respawning && v.job.state.Spawned? {
      ChangeStateFramed(s1, j, Stopping, w, luck);
    } else if v.respawning && !v.advance {
      GoalFramed(s1, j, Respawning, w, luck);
    }
  }

  lemma AfterFramed(s: Sys, j: JobId, p: Process, status: int, v: Verdict, w: World, luck: Oracle)
    requires AfterReaping(s, j, p, status, v, w, luck).Ok?
    ensures Framed(s, AfterReaping(s, j, p, status, v, w, luck).value)
  {
    hide JobFailed, ChangeGoal, AdvanceJob;
    var s1 := s;
    if v.failed {
      FailFramed(s, j, Some(p), status);
      s1 := JobFailed(s, j, Some(p), status).value;
    }
    var s2 := s1;
    if v.stop {
      GoalFramed(s1, j, Stop, w, luck);
      s2 := ChangeGoal(s1, j, Stop, w, luck).value;
    }
    FramedChain(s, s1, s2);
    if v.advance && !(v.stop && s2.jobs[j].state.Running?) {
      AdvanceFramed(s2, j, w, luck);
      FramedChain(s, s2, AdvanceJob(s2, j, w, luck).value);
    }
  }

  /** The window changes as the death decides, and not otherwise. */
  lemma TerminatedFramed(s: Sys, j: JobId, p: Process, status: int, now: int, disabled: bool, w: World, luck: Oracle)
    requires Terminated(s, j, p, status, now, disabled, w, luck).Ok?
    ensures Present(s, j) && Death(ConfigOf(s, j), s.jobs[j], p, status, now, disabled).Ok?
    ensures var v := Death(ConfigOf(s, j), s.jobs[j], p, status, now, disabled).value;
            Framed(SetJob(s, j, v.job), Terminated(s, j, p, status, now, disabled, w, luck).value)
  {
    hide Death, BeforeReaping, AfterReaping;
    var v := Death(ConfigOf(s, j), s.jobs[j], p, status, now, disabled).value;
    BeforeFramed(s, j, v, w, luck);
    var s1 := BeforeReaping(s, j, v, w, luck).value;
    var s2 := SetJob(s1, j, Reaped(s1.jobs[j], p));
    AfterFramed(s2, j, p, status, v, w, luck);
    FramedChain(SetJob(s, j, v.job), s1, s2);
    FramedChain(SetJob(s, j, v.job), s2, AfterReaping(s2, j, p, status, v, w, luck).value);
  }

  lemma ChildErrorFramed(s: Sys, j: JobId, p: Process, w: World, luck: Oracle)
    requires ChildError(s, j, p, w, luck).Ok?
    ensures Framed(s, ChildError(s, j, p, w, luck).value)
  {
    hide JobFailed, ChangeGoal, AdvanceJob;
    var s1 := SetJob(s, j, s.jobs[j].(procs := s.jobs[j].procs - {p}, setup := s.jobs[j].setup - {p}));
    if p.PostStartProcess? || p.PreStopProcess? {
      AdvanceFramed(s1, j, w, luck);
      FramedChain(s, s1, AdvanceJob(s1, j, w, luck).value);
    } else {
      FailFramed(s1, j, Some(p), -1);
      var s2 := JobFailed(s1, j, Some(p), -1).value;
      GoalFramed(s2, j, Stop, w, luck);
      var s3 := ChangeGoal(s2, j, Stop, w, luck).value;
      FramedChain(s, s1, s2);
      FramedChain(s, s2, s3);
      if !p.SecurityProcess? {
        AdvanceFramed(s3, j, w, luck);
        FramedChain(s, s3, AdvanceJob(s3, j, w, luck).value);
      }
    }
  }

  lemma ChildReadyFramed(s: Sys, j: JobId, p: Process, w: World, luck: Oracle)
    requires ChildReady(s, j, p, w, luck).Ok?
    ensures Framed(s, ChildReady(s, j, p, w, luck).value)
  {
    hide AdvanceJob;
    var s1 := SetJob(s, j, s.jobs[j].(setup := s.jobs[j].setup - {p}));
    if s.jobs[j].state.Spawned? && ConfigOf(s, j).expectsNothing && p.MainProcess? {
      AdvanceFramed(s1, j, w, luck);
      FramedChain(s, s1, AdvanceJob(s1, j, w, luck).value);
    }
  }

  lemma RewiredFramed(s: Sys, r: Sys)
    requires Rewired(s, r)
    ensures Framed(s, r)
  {
  }

  // ---- One step ----

  lemma JobStepFramed(s: Sys, input: Input, w: World)
    requires Possible(s, input) && Step(s, input, w).Ok?
    requires input.StartCommand? || input.StopCommand? || input.RestartCommand? || input.SetupSucceeded?
             || input.SetupFailed?
             || input.MainReady? || input.KillTimerFired? || input.StartClassCommand? || input.Emit?
               || input.PollEvents?
    ensures Framed(s, Step(s, input, w).value)
  {
    hide StartInstance, StopInstance, RestartInstance, ChildReady, ChildError, AdvanceJob, StartFromClass, Poll;
    match input
    case Emit(_) =>
    case PollEvents(turns, luck) => PollFramed(s, 0, false, turns, w, luck);
    case StartClassCommand(c, env, luck) => StartClassFramed(s, c, env, w, luck);
    case StartCommand(j, luck) => StartFramed(s, j, None, w, luck);
    case StopCommand(j, luck) => StopFramed(s, j, w, luck);
    case RestartCommand(j, luck) => RestartFramed(s, j, w, luck);
    case SetupSucceeded(j, p, luck) => ChildReadyFramed(s, j, p, w, luck);
    case SetupFailed(j, p, luck) => ChildErrorFramed(s, j, p, w, luck);
    case MainReady(j, luck) => AdvanceFramed(s, j, w, luck);
    case KillTimerFired(_) =>
  }

  lemma ConfigStepFramed(s: Sys, input: Input, w: World)
    requires Inv(s) && Possible(s, input)
    requires input.FileAppeared? || input.FileChanged? || input.FileVanished? || input.ClassesReordered?
             || input.InstancesReordered?
    ensures Step(s, input, w).Ok? && Framed(s, Step(s, input, w).value)
  {
    hide Inv, Rewired, LoadFile, ReloadFile, RemoveFile, Swapped;
    match input
    case FileAppeared(at, config, startOn) =>
      LoadFileKeeps(s, at, config, startOn, w);
      RewiredFramed(s, LoadFile(s, at, config, startOn, w).value);
    case FileChanged(c, config, startOn) =>
      ReloadFileKeeps(s, c, config, startOn, w);
      RewiredFramed(s, ReloadFile(s, c, config, startOn, w).value);
    case FileVanished(c) =>
      RemoveFileKeeps(s, c);
      RewiredFramed(s, RemoveFile(s, c).value);
    case ClassesReordered(_) =>
    case InstancesReordered(_, _) =>
  }

  /** The death of a main process in which the program asks the limiter whether to respawn it. */
  predicate Asks(s: Sys, input: Input, j: JobId) {
    && Possible(s, input) && input.Died? && input.j == j && input.p.MainProcess? && Present(s, j)
    && !s.jobs[j].state.Killed? && !s.jobs[j].state.Stopping? && s.jobs[j].goal.Start?
    && Fails(ConfigOf(s, j), input.status) && ConfigOf(s, j).respawn && !input.respawnDisabled
  }

  /** The main process of the job dies and is to be started again. */
  predicate IsRespawn(s: Sys, input: Input, j: JobId) {
    && Possible(s, input) && input.Died? && input.j == j && Present(s, j)
    && var v := Death(ConfigOf(s, j), s.jobs[j], input.p, input.status, input.now, input.respawnDisabled);
       v.Ok? && v.value.respawning
  }

  lemma DeathAsks(s: Sys, input: Input, j: JobId)
    requires Possible(s, input) && input.Died? && input.j == j && Present(s, j)
    requires Death(ConfigOf(s, j), s.jobs[j], input.p, input.status, input.now, input.respawnDisabled).Ok?
    ensures var v,
            limit := Death(ConfigOf(s, j), s.jobs[j], input.p, input.status, input.now, input.respawnDisabled).value,
                            ConfigOf(s, j).limit;
            && v.job ==
               s.jobs[j].(window := if Asks(s, input, j) then Next(limit, s.jobs[j].window, input.now)
                 else s.jobs[j].window)
            && (IsRespawn(s, input, j) <==> Asks(s, input, j) && !Runaway(limit, s.jobs[j].window, input.now))
  {
  }

  /** What a step does to the window of a job. */
  ghost predicate WindowRight(s: Sys, input: Input, r: Sys, j: JobId) {
    && |s.jobs| <= |r.jobs| && |s.classes| <= |r.classes|
    && (forall c :: 0 <= c < |s.classes| ==> r.classes[c].config == s.classes[c].config)
    && (|s.jobs| <= j < |r.jobs| ==> r.jobs[j].window == Window(0, 0) && r.jobs[j].cls < |r.classes|)
    && (j < |s.jobs| ==>
          && r.jobs[j].cls == s.jobs[j].cls
          && r.jobs[j].window == if Asks(s, input, j) then Next(ConfigOf(s, j).limit, s.jobs[j].window, input.now)
                                 else s.jobs[j].window)
  }

  lemma StepWindow(s: Sys, input: Input, w: World, j: JobId)
    requires Safe(s, w)
    ensures Step(s, input, w).Ok? && WindowRight(s, input, Step(s, input, w).value, j)
  {
    hide Safe, Step, Death, Terminated;
    StepSafe(s, input, w);
    SafeInv(s, w);
    if !Possible(s, input) {
      NothingDone(s, input, w);
    } else if input.Died? {
      DiedStep(s, input, w);
      TerminatedFramed(s, input.j, input.p, input.status, input.now, input.respawnDisabled, w, input.luck);
      DeathAsks(s, input, input.j);
    } else if input.FileAppeared? || input.FileChanged? || input.FileVanished? || input.ClassesReordered?
      || input.InstancesReordered? {
      ConfigStepFramed(s, input, w);
    } else {
      JobStepFramed(s, input, w);
    }
  }

  lemma SafeInv(s: Sys, w: World)
    requires Safe(s, w)
    ensures Inv(s)
  {
  }

  lemma DiedStep(s: Sys, input: Input, w: World)
    requires Possible(s, input) && input.Died?
    ensures Step(s, input, w) ==
            Terminated(s, input.j, input.p, input.status, input.now, input.respawnDisabled, w, input.luck)
  {
  }

  // ---- Whole runs ----

  /** The times at which the limiter was asked about the job. */
  ghost function Asked(inputs: seq<Input>, w: World, j: JobId): seq<int>
    decreases |inputs|
  {
    if inputs == [] then []
    else
      var init, last := inputs[..|inputs| - 1], inputs[|inputs| - 1];
      Asked(init, w, j) + (if Asks(Final(init, w), last, j) then [last.now] else [])
  }

  /** How often the main process of the job was started again at a time between a and b. */
  ghost function Respawned(inputs: seq<Input>, w: World, j: JobId, a: int, b: int): nat
    decreases |inputs|
  {
    if inputs == [] then 0
    else
      var init, last := inputs[..|inputs| - 1], inputs[|inputs| - 1];
      Respawned(init, w, j, a, b) + (if IsRespawn(Final(init, w), last, j) && a <= last.now <= b then 1 else 0)
  }

  /** The clock does not go back. */
  predicate Forward(inputs: seq<Input>) {
    forall i, k :: 0 <= i < k < |inputs| && inputs[i].Died? && inputs[k].Died? ==> inputs[i].now <= inputs[k].now
  }

  /** The window after these calls. */
  function WindowAfter(l: Limit, w: Window, calls: seq<int>): Window
    decreases |calls|
  {
    if calls == [] then w else WindowAfter(l, Next(l, w, calls[0]), calls[1..])
  }

  lemma {:induction false} OneMoreCall(l: Limit, w: Window, calls: seq<int>, t: int, a: int, b: int)
    ensures WindowAfter(l, w, calls + [t]) == Next(l, WindowAfter(l, w, calls), t)
    ensures Granted(l, w, calls + [t], a, b) ==
            Granted(l, w, calls, a, b) + (if a <= t <= b && !Runaway(l, WindowAfter(l, w, calls), t) then 1 else 0)
    decreases |calls|
  {
    if calls == [] {
      assert [t][1..] == [] && [] + [t] == [t];
    } else {
      assert (calls + [t])[1..] == calls[1..] + [t];
      OneMoreCall(l, Next(l, w, calls[0]), calls[1..], t, a, b);
    }
  }

  /** The limit of the job's class. */
  function LimitOf(s: Sys, j: JobId): Limit
    requires j < |s.jobs| && s.jobs[j].cls < |s.classes|
  {
    s.classes[s.jobs[j].cls].config.limit
  }

  /** The state of the limiter is what the calls have made of it, and what it granted is what was respawned. */
  lemma {:induction false} RunsAsk(inputs: seq<Input>, w: World, j: JobId, a: int, b: int)
    ensures var s, calls := Final(inputs, w), Asked(inputs, w, j);
            && (j >= |s.jobs| ==> calls == [] && Respawned(inputs, w, j, a, b) == 0)
            && (j < |s.jobs| ==>
                  && s.jobs[j].cls < |s.classes|
                  && s.jobs[j].window == WindowAfter(LimitOf(s, j), Window(0, 0), calls)
                  && Respawned(inputs, w, j, a, b) == Granted(LimitOf(s, j), Window(0, 0), calls, a, b))
    decreases |inputs|
  {
    hide Final, Step, Asks, IsRespawn, Run, WindowRight, WindowAfter, Granted;
    if inputs == [] {
      EmptyRun(w);
    } else {
      var init, last := inputs[..|inputs| - 1], inputs[|inputs| - 1];
      RunsAsk(init, w, j, a, b);
      assert init + [last] == inputs;
      OneMoreInput(init, last, w);
      var s, r := Final(init, w), Final(inputs, w);
      StepWindow(s, last, w, j);
      WindowBasics(s, last, r, j);
      AsksPresent(s, last, j);
      if j >= |s.jobs| {
        NobodyAsks(s, last, j);
        assert Asked(init, w, j) + [] == Asked(init, w, j);
      } else {
        RespawnAsks(s, last, w, j);
        CallCounted(s, last, r, j, Asked(init, w, j), a, b);
      }
    }
  }

  lemma CallCounted(s: Sys, input: Input, r: Sys, j: JobId, calls: seq<int>, a: int, b: int)
    requires j < |s.jobs| <= |r.jobs| && s.jobs[j].cls < |s.classes| && WindowRight(s, input, r, j)
    requires Asks(s, input, j) ==> input.Died?
    requires IsRespawn(s, input, j) <==> Asks(s, input, j) && !Runaway(LimitOf(s, j), s.jobs[j].window, input.now)
    requires s.jobs[j].window == WindowAfter(LimitOf(s, j), Window(0, 0), calls)
    ensures var l, more := LimitOf(r, j), calls + (if Asks(s, input, j) then [input.now] else []);
            && l == LimitOf(s, j) && r.jobs[j].window == WindowAfter(l, Window(0, 0), more)
            && Granted(l, Window(0, 0), more, a, b) ==
               Granted(l, Window(0, 0), calls, a, b) + (if IsRespawn(s, input, j) && a <= input.now <= b then 1 else 0)
  {
    hide Asks, IsRespawn, Runaway;
    AsksPresent(s, input, j);
    if Asks(s, input, j) {
      OneMoreCall(LimitOf(s, j), Window(0, 0), calls, input.now, a, b);
    } else {
      assert calls + [] == calls;
    }
  }

  lemma WindowBasics(s: Sys, input: Input, r: Sys, j: JobId)
    requires WindowRight(s, input, r, j)
    ensures |s.jobs| <= |r.jobs| && (j < |s.jobs| ==> r.jobs[j].cls == s.jobs[j].cls)
    ensures |s.classes| <= |r.classes|
    ensures |s.jobs| <= j < |r.jobs| ==>
              r.jobs[j].cls < |r.classes| && r.jobs[j].window == WindowAfter(LimitOf(r, j), Window(0, 0), [])
    ensures forall l, a, b :: Granted(l, Window(0, 0), [], a, b) == 0
  {
  }

  lemma AsksPresent(s: Sys, input: Input, j: JobId)
    ensures Asks(s, input, j) ==> Present(s, j) && input.Died?
    ensures IsRespawn(s, input, j) ==> input.Died?
  {
  }

  lemma EmptyRun(w: World)
    ensures Final([], w) == INITIAL
  {
  }

  lemma NobodyAsks(s: Sys, input: Input, j: JobId)
    requires j >= |s.jobs|
    ensures !Asks(s, input, j) && !IsRespawn(s, input, j)
  {
  }

  lemma RespawnAsks(s: Sys, input: Input, w: World, j: JobId)
    requires Safe(s, w) && j < |s.jobs|
    ensures Asks(s, input, j) ==> s.jobs[j].cls < |s.classes| && input.Died?
    ensures IsRespawn(s, input, j) <==>
              Asks(s, input, j) && input.Died? && s.jobs[j].cls < |s.classes|
                && !Runaway(LimitOf(s, j), s.jobs[j].window, input.now)
  {
    hide Safe, Death, Terminated, Step, Possible;
    if Possible(s, input) && input.Died? && input.j == j && Present(s, j) {
      StepSafe(s, input, w);
      DiedStep(s, input, w);
      TerminatedFramed(s, j, input.p, input.status, input.now, input.respawnDisabled, w, input.luck);
      DeathAsks(s, input, j);
    }
  }

  lemma SortedNothing()
    ensures Sorted([])
  {
  }

  lemma SortedAppend(calls: seq<int>, t: int)
    requires Sorted(calls) && forall x :: x in calls ==> x <= t
    ensures Sorted(calls + [t])
  {
    forall i, j | 0 <= i < j < |calls| + 1 ensures (calls + [t])[i] <= (calls + [t])[j] {
      if j == |calls| { assert calls[i] in calls; }
    }
  }

  lemma {:induction false} AskedForward(inputs: seq<Input>, w: World, j: JobId)
    requires Forward(inputs)
    ensures Sorted(Asked(inputs, w, j))
    ensures forall t :: t in Asked(inputs, w, j) ==> exists i ::
            0 <= i < |inputs| && inputs[i].Died? && inputs[i].now == t
    decreases |inputs|
  {
    hide Final, Sorted, Asks;
    SortedNothing();
    if inputs != [] {
      var init, last := inputs[..|inputs| - 1], inputs[|inputs| - 1];
      assert forall i :: 0 <= i < |init| ==> init[i] == inputs[i];
      AskedForward(init, w, j);
      AsksPresent(Final(init, w), last, j);
      forall t | t in Asked(inputs, w, j)
        ensures exists i :: 0 <= i < |inputs| && inputs[i].Died? && inputs[i].now == t
      {
        if t in Asked(init, w, j) {
          var i :| 0 <= i < |init| && init[i].Died? && init[i].now == t;
          assert inputs[i].now == t;
        } else {
          assert inputs[|inputs| - 1].now == t;
        }
      }
      if Asks(Final(init, w), last, j) {
        forall t | t in Asked(init, w, j) ensures t <= last.now {
          var i :| 0 <= i < |init| && init[i].Died? && init[i].now == t;
          assert inputs[i].now <= inputs[|inputs| - 1].now;
        }
        SortedAppend(Asked(init, w, j), last.now);
      } else {
        assert Asked(init, w, j) + [] == Asked(init, w, j);
      }
    }
  }

  /**
   In any run with a clock that does not go back, any span of d seconds sees at most
   limit * (d / interval + 2) respawns of a job, and less than an interval at most twice the limit.
   */
  lemma RespawnsAreBounded(inputs: seq<Input>, w: World, j: JobId, a: int, d: nat)
    requires Forward(inputs) && j < |Final(inputs, w).jobs|
    ensures Final(inputs, w).jobs[j].cls < |Final(inputs, w).classes|
    ensures var l := LimitOf(Final(inputs, w), j);
            Limited(l) ==>
              && Respawned(inputs, w, j, a, a + d) <= l.count * (d / l.interval + 2)
              && (d < l.interval ==> Respawned(inputs, w, j, a, a + d) <= 2 * l.count)
  {
    hide Final, Asked, Respawned;
    RunsAsk(inputs, w, j, a, a + d);
    AskedForward(inputs, w, j);
    var l := LimitOf(Final(inputs, w), j);
    if Limited(l) { RespawnBound(l, Window(0, 0), Asked(inputs, w, j), a, d); }
  }
}

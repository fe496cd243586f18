/** Commands to jobs and classes: every such step keeps the invariant. */
module CommandSteps {
  import opened Wrappers
  import opened Environ
  import opened Condition
  import opened JobMachine
  import opened Supervisor
  import opened SupervisorSteps
  import opened Ledger
  import opened Lists
  import opened Invariant
  import opened Transitions
  import opened Arrival
  import opened ProcessSteps
  import Expansion

  /** A change to the environments of a job at rest, and the end of everything it blocks. */
  lemma FinishQuietly(s: Sys, j: JobId, job: Job)
    requires Inv(s) && LiveJob(s, j) && SameLinks(s.jobs[j], job)
    requires SameMotion(s.jobs[j], job) && job.failed == s.jobs[j].failed
    requires job.failedProcess == s.jobs[j].failedProcess
    ensures JobFinished(SetJob(s, j, job), j, false).Ok?
    ensures var r := JobFinished(SetJob(s, j, job), j, false).value;
            && Inv(r) && Touches(s, r, j) && LiveJob(r, j) && r.jobs[j] == job.(blocking := [])
            && Exact(s, r, j, job.(blocking := []), [])
  {
    hide Ready, Touches, Inv, JobFinished;
    ReadyAtRest(s, j);
    LiveReady(s, j);
    var s1 := SetJob(s, j, job);
    ReadyLocal(s, j, job);
    SameRest(s.classes[job.cls].config, s.jobs[j], job);
    ReadyParts(s1, j);
    FinishTouches(s1, j, false);
    FinishRests(s1, j, false);
    TouchesChain(s, s1, JobFinished(s1, j, false).value, j);
    FinishKeepsEvents(s1, j, JobFinished(s1, j, false).value);
  }

  lemma SameRest(config: Config, a: Job, b: Job)
    requires JobOk(config, a) && SameMotion(a, b) && a.failed == b.failed && a.failedProcess == b.failedProcess
    ensures JobOk(config, b)
  {
  }

  lemma ReadyParts(s: Sys, j: JobId)
    requires Ready(s, j)
    ensures Base(s) && LiveJob(s, j) && OthersAtRest(s, j) && LiveClass(s, s.jobs[j].cls)
  {
  }

  lemma GoalGood(a: Sys, s: Sys, j: JobId, goal: Goal, w: World, luck: Oracle)
    requires Inv(s) && LiveJob(s, j) && !goal.Respawning? && Touches(a, s, j)
    ensures ChangeGoal(s, j, goal, w, luck).Ok?
    ensures var r := ChangeGoal(s, j, goal, w, luck).value;
            && Inv(r) && Touches(a, r, j) && LiveJob(r, j)
            && (goal.Start? || !s.jobs[j].state.Waiting? ==> !r.jobs[j].state.Waiting?)
  {
    hide Touches, Inv, ChangeGoal;
    GoalKeeps(s, j, goal, w, luck);
    TouchesChain(a, s, ChangeGoal(s, j, goal, w, luck).value, j);
  }

  /** job_start */
  lemma StartKeeps(s: Sys, j: JobId, startEnv: Option<Env>, w: World, luck: Oracle)
    requires Inv(s) && LiveJob(s, j)
    ensures Good(s, StartInstance(s, j, startEnv, w, luck), j)
    ensures LiveJob(StartInstance(s, j, startEnv, w, luck).value, j)
  {
    hide Touches, Inv, ChangeGoal, JobFinished, Ready;
    ReadyAtRest(s, j);
    if s.jobs[j].goal.Start? {
      SelfTouches(s, j);
    } else {
      var job := s.jobs[j].(startEnv := startEnv);
      FinishQuietly(s, j, job);
      GoalGood(s, JobFinished(SetJob(s, j, job), j, false).value, j, Start, w, luck);
    }
  }

  /**
   A job that waits is started: it announces its start, with the environment it is given,
   and nothing of an earlier life.
   */
  lemma StartedWith(s: Sys, j: JobId, startEnv: Option<Env>, w: World, luck: Oracle)
    requires Inv(s) && LiveJob(s, j) && s.jobs[j].state.Waiting?
    ensures StartInstance(s, j, startEnv, w, luck).Ok?
    ensures var r := StartInstance(s, j, startEnv, w, luck).value;
            && |r.events| == |s.events| + 1 && LiveJob(r, j)
            && r.jobs[j].state.Starting? && r.jobs[j].blocker == Some(|s.events|)
            && r.events[|s.events|].blocking == [j]
            && r.events[|s.events|].what.name == "starting"
            && r.jobs[j].env == (if startEnv.Some? then startEnv.value else s.jobs[j].env)
            && r.jobs[j].startEnv.None? && r.jobs[j].stopEnv.None? && r.jobs[j].blocking == []
            && !r.jobs[j].failed && r.jobs[j].failedProcess.None?
  {
    hide Inv, JobFinished, Touches, ChangeGoal, JobOk;
    var job := s.jobs[j].(startEnv := startEnv);
    WaitingParts(s, j);
    FinishQuietly(s, j, job);
    var s1 := JobFinished(SetJob(s, j, job), j, false).value;
    WaitingParts(s1, j);
    FinishedEventCount(s, j, job);
    LeavesWaiting(s1, j, w, luck);
  }

  lemma WaitingParts(s: Sys, j: JobId)
    requires Inv(s) && LiveJob(s, j)
    ensures LiveClass(s, s.jobs[j].cls)
    ensures s.jobs[j].state.Waiting? ==> s.jobs[j].goal.Stop? && s.jobs[j].blocker.None?
  {
    hide Base;
    assert JobAtRest(s, j);
  }

  lemma LeavesWaiting(s: Sys, j: JobId, w: World, luck: Oracle)
    requires LiveJob(s, j) && LiveClass(s, s.jobs[j].cls) && s.jobs[j].state.Waiting? && s.jobs[j].goal.Stop?
    requires s.jobs[j].blocker.None?
    ensures ChangeGoal(s, j, Start, w, luck).Ok?
    ensures var r, job := ChangeGoal(s, j, Start, w, luck).value, s.jobs[j];
            && |r.events| == |s.events| + 1 && r.events[|s.events|].blocking == [j]
            && r.events[|s.events|].what.name == "starting"
            && LiveJob(r, j) && r.jobs[j].state.Starting? && r.jobs[j].blocker == Some(|s.events|)
            && r.jobs[j].blocking == job.blocking
            && r.jobs[j].env == (if job.startEnv.Some? then job.startEnv.value else job.env)
            && r.jobs[j].startEnv.None? && r.jobs[j].stopEnv.None? && !r.jobs[j].failed && r.jobs[j].failedProcess.None?
  {
    hide JobFinished, Retire;
    var config := s.classes[s.jobs[j].cls].config;
    var begun := s.jobs[j].(goal := Start);
    var s1 := SetJob(s, j, begun);
    assert NextState(config, begun) == Ok(Decision(begun, Starting));
    assert SetJob(s1, j, begun) == s1;
    assert AdvanceJob(s1, j, w, luck) == ChangeState(s1, j, Starting, w, luck);
  }

  lemma FinishedEventCount(s: Sys, j: JobId, job: Job)
    requires j < |s.jobs| && JobFinished(SetJob(s, j, job), j, false).Ok?
    ensures |JobFinished(SetJob(s, j, job), j, false).value.events| == |s.events|
  {
  }

  /** job_stop */
  lemma StopKeeps(s: Sys, j: JobId, w: World, luck: Oracle)
    requires Inv(s) && LiveJob(s, j) && !s.jobs[j].state.Waiting?
    ensures Good(s, StopInstance(s, j, w, luck), j) && LiveJob(StopInstance(s, j, w, luck).value, j)
  {
    hide Touches, Inv, ChangeGoal, JobFinished, Ready;
    if s.jobs[j].goal.Stop? {
      SelfTouches(s, j);
    } else {
      var job := s.jobs[j].(stopEnv := None);
      FinishQuietly(s, j, job);
      GoalGood(s, JobFinished(SetJob(s, j, job), j, false).value, j, Stop, w, luck);
    }
  }

  /** job_restart */
  lemma RestartKeeps(s: Sys, j: JobId, w: World, luck: Oracle)
    requires Inv(s) && LiveJob(s, j) && !s.jobs[j].state.Waiting?
    ensures Good(s, RestartInstance(s, j, w, luck), j) && LiveJob(RestartInstance(s, j, w, luck).value, j)
  {
    hide Touches, Inv, ChangeGoal, JobFinished, Ready;
    if s.jobs[j].goal.Stop? {
      SelfTouches(s, j);
    } else {
      var job := s.jobs[j].(startEnv := None, stopEnv := None);
      FinishQuietly(s, j, job);
      var s1 := JobFinished(SetJob(s, j, job), j, false).value;
      GoalGood(s, s1, j, Stop, w, luck);
      GoalGood(s, ChangeGoal(s1, j, Stop, w, luck).value, j, Start, w, luck);
    }
  }

  // ---- New instances ----

  lemma {:induction false} InstanceFound(s: Sys, js: seq<JobId>, name: string)
    ensures var r := InstanceNamed(s, js, name);
            && (r.Some? ==> r.value in js && r.value < |s.jobs| && s.jobs[r.value].name == name)
            && (r.None? ==> forall j :: j in js && j < |s.jobs| ==> s.jobs[j].name != name)
  {
    if js != [] {
      InstanceFound(s, js[1..], name);
      assert forall j :: j in js <==> j == js[0] || j in js[1..];
    }
  }

  /** At most one job is added; nothing else changes but its class's table. */
  ghost predicate Grows(s: Sys, r: Sys, c: ClassId) {
    && r == s.(jobs := r.jobs, classes := r.classes)
    && |s.jobs| <= |r.jobs| && (forall k :: 0 <= k < |s.jobs| ==> r.jobs[k] == s.jobs[k])
    && c < |s.classes| == |r.classes| && r.classes == s.classes[c := s.classes[c].(instances := r.classes[c].instances)]
    && s.classes[c].instances <= r.classes[c].instances
    && (forall k :: |s.jobs| <= k < |r.jobs| ==> k in r.classes[c].instances && r.jobs[k].state.Waiting?)
  }

  lemma FindOrCreateKeeps(s: Sys, c: ClassId, name: string)
    requires Inv(s) && c in s.registered
    ensures FindOrCreate(s, c, name).Ok?
    ensures var f := FindOrCreate(s, c, name).value;
            && Inv(f.sys) && Grows(s, f.sys, c) && LiveJob(f.sys, f.job) && f.sys.jobs[f.job].cls == c
            && f.sys.jobs[f.job].name == name && |f.sys.jobs| <= |s.jobs| + 1
            && (|f.sys.jobs| > |s.jobs| ==> f.job == |s.jobs|)
            && Looked(s, f, c, name)
  {
    hide Balanced, Linked, Queued, SoundTrees, FilesAgree;
    InstanceFound(s, s.classes[c].instances, name);
    if InstanceNamed(s, s.classes[c].instances, name).None? {
      var job := NewJob(c, name, s.classes[c].config);
      NewJobKeeps(s, c, name, FindOrCreate(s, c, name).value.sys);
    }
  }

  /** No instance of the class has the name. */
  ghost predicate NoneNamed(s: Sys, c: ClassId, name: string)
    requires c < |s.classes|
  {
    forall k :: k in s.classes[c].instances && k < |s.jobs| ==> s.jobs[k].name != name
  }

  /** The instance with the name, or a new one at the end of the heap and of its class's table. */
  ghost predicate Looked(s: Sys, f: Found, c: ClassId, name: string)
    requires c < |s.classes|
  {
    if NoneNamed(s, c, name) then
      var instances := s.classes[c].instances + [|s.jobs|];
      && f.job == |s.jobs|
      && f.sys == s.(jobs := s.jobs + [NewJob(c, name, s.classes[c].config)],
                     classes := s.classes[c := s.classes[c].(instances := instances)])
    else
      && f.sys == s && f.job in s.classes[c].instances && f.job < |s.jobs| && s.jobs[f.job].name == name
      && InstanceNamed(s, s.classes[c].instances, name) == Some(f.job)
  }

  lemma NewJobKeeps(s: Sys, c: ClassId, name: string, r: Sys)
    requires Inv(s) && c in s.registered && c < |s.classes|
    requires r == s.(jobs := s.jobs + [NewJob(c, name, s.classes[c].config)],
                     classes := s.classes[c := s.classes[c].(instances := s.classes[c].instances + [|s.jobs|])])
    ensures Inv(r)
  {
    hide Base;
    NewJobBase(s, c, name, r);
    RegisteredLives(s, c);
    forall k: JobId ensures JobAtRest(r, k) {
      assert JobAtRest(s, k);
    }
  }

  lemma NewJobBase(s: Sys, c: ClassId, name: string, r: Sys)
    requires Base(s) && c in s.registered && c < |s.classes|
    requires r == s.(jobs := s.jobs + [NewJob(c, name, s.classes[c].config)],
                     classes := s.classes[c := s.classes[c].(instances := s.classes[c].instances + [|s.jobs|])])
    ensures Base(r)
  {
    hide Balanced, Linked, Queued, RegisteredOnce, InstancesAgree, FilesAgree;
    var job := NewJob(c, name, s.classes[c].config);
    NewJobBalance(s, c, job, r);
    NewJobLinks(s, job, r);
    QueueKept(s, r);
    NewJobTables(s, c, job, r);
    if job.stopOn.Some? { FreshHoldsNothing(s.classes[c].config.stopOn.value); }
  }

  lemma {:induction false} FreshHoldsNothing(t: Cond)
    ensures Held(Fresh(t)) == [] && Sound(Fresh(t))
  {
    if t.Node? {
      FreshHoldsNothing(t.left);
      FreshHoldsNothing(t.right);
    }
  }

  lemma NewJobBalance(s: Sys, c: ClassId, job: Job, r: Sys)
    requires Balanced(s) && c < |s.classes| && job == NewJob(job.cls, job.name, s.classes[c].config)
    requires r.events == s.events && r.jobs == s.jobs + [job] && |r.classes| == |s.classes|
    requires forall d :: 0 <= d < |s.classes| ==> r.classes[d].startOn == s.classes[d].startOn
    ensures Balanced(r)
  {
    if job.stopOn.Some? { FreshHoldsNothing(s.classes[c].config.stopOn.value); }
    assert HeldBy(job.stopOn) == [] && job.blocking == [];
    forall e: EventId ensures Blockers(r, e) == Holds(r, e) {
      JobHoldsAppend(s.jobs, job, e);
      assert JobHold(job, e) == 0;
      SameClassHolds(s.classes, r.classes, e);
      assert Blockers(s, e) == Holds(s, e);
    }
  }

  lemma NewJobLinks(s: Sys, job: Job, r: Sys)
    requires Linked(s) && job.blocker.None? && r.events == s.events && r.jobs == s.jobs + [job]
    ensures Linked(r)
  {
    forall e, k: JobId | 0 <= e < |r.events| && k in r.events[e].blocking
      ensures LiveJob(r, k) && r.jobs[k].blocker == Some(e)
    {
      assert LiveJob(s, k);
    }
    forall k: JobId | LiveJob(r, k) && r.jobs[k].blocker.Some?
      ensures LiveEvent(r, r.jobs[k].blocker.value) && k in r.events[r.jobs[k].blocker.value].blocking
    {
      assert LiveJob(s, k);
      assert LiveEvent(s, s.jobs[k].blocker.value);
    }
  }

  lemma RegisteredLives(s: Sys, c: ClassId)
    requires (Base(s) || Inv(s)) && c in s.registered
    ensures LiveClass(s, c)
  {
  }

  lemma NewJobTables(s: Sys, c: ClassId, job: Job, r: Sys)
    requires RegisteredOnce(s) && InstancesAgree(s) && FilesAgree(s) && c in s.registered && c < |s.classes|
    requires job.cls == c && job.live
    requires r == s.(jobs := s.jobs + [job],
                     classes := s.classes[c := s.classes[c].(instances := s.classes[c].instances + [|s.jobs|])])
    ensures RegisteredOnce(r) && InstancesAgree(r) && FilesAgree(r)
  {
    forall d | d in r.registered ensures LiveClass(r, d) { assert LiveClass(s, d); }
    forall d | d in r.files ensures LiveClass(r, d) && !r.classes[d].deleted { assert LiveClass(s, d); }
    assert LiveClass(s, c);
    NewJobInstances(s, c, job, r);
  }

  lemma NewJobInstances(s: Sys, c: ClassId, job: Job, r: Sys)
    requires InstancesAgree(s) && LiveClass(s, c) && job.cls == c && job.live
    requires r == s.(jobs := s.jobs + [job],
                     classes := s.classes[c := s.classes[c].(instances := s.classes[c].instances + [|s.jobs|])])
    ensures InstancesAgree(r)
  {
    forall k: JobId | LiveJob(r, k) ensures LiveClass(r, r.jobs[k].cls) && k in r.classes[r.jobs[k].cls].instances {
      if k < |s.jobs| { assert LiveJob(s, k); }
    }
    forall d, k: JobId | 0 <= d < |r.classes| && k in r.classes[d].instances
      ensures LiveJob(r, k) && r.jobs[k].cls == d
    {
      if k in s.classes[d].instances { assert LiveJob(s, k); }
    }
    forall d | 0 <= d < |r.classes| ensures Distinct(r.classes[d].instances) {
      assert Distinct(s.classes[d].instances);
      if d == c {
        assert forall k: JobId :: k in s.classes[c].instances ==> LiveJob(s, k);
        DistinctAppend(s.classes[c].instances, |s.jobs|);
      }
    }
  }

  /** Where a new instance has its variables from: the command, else the class, else init's own table. */
  lemma InstanceEnvironment(config: Config, w: World, env: Env, key: string)
    requires PlainKey(key)
    ensures var told, configured, inherited := LastMention(env, key), LastMention(config.env, key),
            LastMention(w.jobEnviron, key);
            Get(Appended(ClassEnvironment(config, w), env, true, w.outer), key) ==
            if told.Some? then Meant(told.value, w.outer)
            else if configured.Some? then Meant(configured.value, w.outer)
            else if inherited.Some? then Meant(inherited.value, w.outer)
            else None
  {
    hide Appended;
    var base := Appended([], w.jobEnviron, true, w.outer);
    AppendedLastWriterWins([], w.jobEnviron, w.outer, key);
    AppendedLastWriterWins(base, config.env, w.outer, key);
    AppendedLastWriterWins(Appended(base, config.env, true, w.outer), env, w.outer, key);
  }

  /** job_class_start of a registered class */
  lemma StartFromClassKeeps(s: Sys, c: ClassId, env: Env, w: World, luck: Oracle)
    requires Inv(s) && c in s.registered && NoneWaiting(s)
    ensures StartFromClass(s, c, env, w, luck).Ok?
    ensures Inv(StartFromClass(s, c, env, w, luck).value) && NoneWaiting(StartFromClass(s, c, env, w, luck).value)
    ensures EventsQuiet(s, StartFromClass(s, c, env, w, luck).value)
  {
    hide Base, FindOrCreate, StartInstance, Touches;
    RegisteredLives(s, c);
    var config := s.classes[c].config;
    var startEnv := Appended(ClassEnvironment(config, w), env, true, w.outer);
    var name := Expansion.Expand(config.instance, startEnv);
    if name.Ok? {
      FindOrCreateKeeps(s, c, name.value);
      var f := FindOrCreate(s, c, name.value).value;
      StartKeeps(f.sys, f.job, Some(startEnv), w, luck);
      TouchedWaiting(f.sys, StartInstance(f.sys, f.job, Some(startEnv), w, luck).value, f.job);
    }
  }

  /** Starting an instance leaves the start conditions alone. */
  lemma StartFromClassTrees(s: Sys, c: ClassId, env: Env, w: World, luck: Oracle)
    requires Inv(s) && c in s.registered
    ensures StartFromClass(s, c, env, w, luck).Ok?
    ensures var r := StartFromClass(s, c, env, w, luck).value;
            && |r.classes| == |s.classes|
            && forall d :: 0 <= d < |s.classes| ==>
                 r.classes[d].startOn == s.classes[d].startOn || r.classes[d].startOn.None?
  {
    hide Inv, FindOrCreate, StartInstance;
    RegisteredLives(s, c);
    var config := s.classes[c].config;
    var startEnv := Appended(ClassEnvironment(config, w), env, true, w.outer);
    var name := Expansion.Expand(config.instance, startEnv);
    if name.Ok? {
      FindOrCreateKeeps(s, c, name.value);
      var f := FindOrCreate(s, c, name.value).value;
      StartKeeps(f.sys, f.job, Some(startEnv), w, luck);
    }
  }

  /** No job rests in waiting: it is started when made and freed when it comes back there. */
  ghost predicate NoneWaiting(s: Sys) { forall j: JobId :: LiveJob(s, j) ==> !s.jobs[j].state.Waiting? }

  /** Existing events keep everything but their blocker counts and their failed mark; new ones are pending. */
  ghost predicate EventsQuiet(s: Sys, r: Sys) {
    && |s.events| <= |r.events| && r.history == s.history
    && (forall e :: |s.events| <= e < |r.events| ==> r.events[e].live && r.events[e].progress.Pending?)
    && forall e :: 0 <= e < |s.events| ==>
         && r.events[e].live == s.events[e].live && r.events[e].what == s.events[e].what
         && r.events[e].progress == s.events[e].progress && r.events[e].blocking == s.events[e].blocking
  }

  lemma TouchedWaiting(s: Sys, r: Sys, j: JobId)
    requires Touches(s, r, j) && (LiveJob(r, j) ==> !r.jobs[j].state.Waiting?)
    requires forall k: JobId :: LiveJob(s, k) && k != j ==> !s.jobs[k].state.Waiting?
    ensures NoneWaiting(r) && EventsQuiet(s, r)
  {
    forall k: JobId | LiveJob(r, k) ensures !r.jobs[k].state.Waiting? {
      if k != j { assert LiveJob(s, k); }
    }
  }
}

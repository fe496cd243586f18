/** Processes that die or report: every such step keeps the invariant. */
module ProcessSteps {
  import opened Wrappers
  import opened Condition
  import opened JobMachine
  import opened JobReactions
  import opened Supervisor
  import opened SupervisorSteps
  import opened Invariant
  import opened Transitions
  import opened Arrival

  /**
   The step went well: nothing trapped, the invariant holds, only this job is concerned and
   it is not left waiting.
   */
  ghost predicate Good(s: Sys, r: Result<Sys, Trap>, j: JobId) {
    && r.Ok? && Inv(r.value) && Touches(s, r.value, j)
    && (LiveJob(r.value, j) ==> !r.value.jobs[j].state.Waiting?)
  }

  /** The job and its surroundings, before the job itself is at rest again. */
  ghost predicate Ready(s: Sys, j: JobId) {
    Base(s) && LiveJob(s, j) && OthersAtRest(s, j) && LiveClass(s, s.jobs[j].cls)
  }

  lemma GoodChain(a: Sys, b: Sys, r: Result<Sys, Trap>, j: JobId)
    requires Touches(a, b, j) && LiveJob(b, j) && Good(b, r, j)
    ensures Good(a, r, j)
  {
    TouchesChain(a, b, r.value, j);
  }

  lemma ReadyAtRest(s: Sys, j: JobId)
    requires Inv(s) && LiveJob(s, j)
    ensures Ready(s, j) && JobOk(s.classes[s.jobs[j].cls].config, s.jobs[j])
  {
    assert JobAtRest(s, j);
  }

  lemma ReadyLocal(s: Sys, j: JobId, job: Job)
    requires Ready(s, j) && SameLinks(s.jobs[j], job)
    ensures Ready(SetJob(s, j, job), j) && Touches(s, SetJob(s, j, job), j)
  {
    hide Base, OthersAtRest, Touches;
    LocalChange(s, j, job);
    LocalTouches(s, j, job);
  }

  lemma RestsNow(s: Sys, j: JobId)
    requires Ready(s, j) && JobOk(s.classes[s.jobs[j].cls].config, s.jobs[j]) && !s.jobs[j].state.Waiting?
    ensures Good(s, Ok(s), j)
  {
    hide Base, OthersAtRest;
    OneMore(s, j);
    LocalTouches(s, j, s.jobs[j]);
    assert SetJob(s, j, s.jobs[j]) == s;
  }

  /**
   Where the way on from a job leads, as far as running is concerned: from post-start and
   pre-stop it does if the job is to start, and a class with a main process has no other way.
   */
  ghost predicate RunsAfter(config: Config, job: Job, r: Sys, j: JobId) {
    && (LiveJob(r, j) && r.jobs[j].state.Running? && MainProcess in config.processes ==>
          && job.goal.Start?
          && (job.state.PostStarting? || job.state.PostStart? || job.state.PreStop? || job.state.Spawned?)
          && r.jobs[j].procs == job.procs)
    && (job.goal.Start? && (job.state.PostStart? || job.state.PreStop?) ==>
          LiveJob(r, j) && r.jobs[j].state.Running? && r.jobs[j].procs == job.procs)
  }

  lemma AdvanceGood(s: Sys, j: JobId, w: World, luck: Oracle)
    requires Ready(s, j) && Departs(s.classes[s.jobs[j].cls].config, s.jobs[j]) && !IsSpawningState(s.jobs[j].state)
    ensures Good(s, AdvanceJob(s, j, w, luck), j)
    ensures MovedOn(s, s.jobs[j], AdvanceJob(s, j, w, luck).value, j, w, luck)
    ensures Marks(s, AdvanceJob(s, j, w, luck).value, [])
    ensures RunsAfter(s.classes[s.jobs[j].cls].config, s.jobs[j], AdvanceJob(s, j, w, luck).value, j)
  {
    hide Base, OthersAtRest, AdvanceJob, Touches, Departs, Inv, Moving, MovedOn;
    AdvanceKeeps(s, j, w, luck);
    AdvanceRuns(s, j, w, luck);
    AdvanceArrives(s, j, w, luck);
  }

  lemma AdvanceRuns(s: Sys, j: JobId, w: World, luck: Oracle)
    requires Ready(s, j) && Departs(s.classes[s.jobs[j].cls].config, s.jobs[j])
    ensures AdvanceJob(s, j, w, luck).Ok?
    ensures RunsAfter(s.classes[s.jobs[j].cls].config, s.jobs[j], AdvanceJob(s, j, w, luck).value, j)
  {
    hide Base, OthersAtRest, AdvanceJob, Touches, Inv, Moving, Destination;
    AdvanceKeeps(s, j, w, luck);
    var config, chance := s.classes[s.jobs[j].cls].config, luck(j, |s.events|);
    var d := NextState(config, s.jobs[j]).value;
    var start, alive := d.job.goal.Start?, MainProcess in d.job.procs;
    RunningDestination(config, start, alive, d.target, chance);
    if Destination(config, start, alive, d.target, chance).Running? && MainProcess in config.processes {
      RunningReached(config, start, alive, d.target, chance);
    }
  }

  // ---- What matters for moving on and for resting ----

  predicate SameMotion(a: Job, b: Job) {
    && a.goal == b.goal && a.state == b.state && a.procs == b.procs && a.setup == b.setup
    && a.killTimer == b.killTimer && a.blocker == b.blocker
  }

  lemma NextAgrees(config: Config, a: Job, b: Job)
    requires NextState(config, a).Ok? && SameMotion(a, b) && !a.state.Starting? && !IsSpawningState(a.state)
    ensures NextState(config, b).Ok?
    ensures var da, db := NextState(config, a).value, NextState(config, b).value;
            && SameMotion(da.job, db.job) && db.target == da.target && SameLinks(b, db.job)
            && !da.target.SecuritySpawning? && !da.target.Security?
  {
  }

  lemma MovingAgrees(config: Config, a: Job, b: Job, target: JobState, luck: Luck)
    requires Moving(config, a, target, luck) && SameMotion(a, b) && !target.SecuritySpawning? && !target.Security?
    ensures Moving(config, b, target, luck)
  {
  }

  lemma DepartsAgree(config: Config, a: Job, b: Job)
    requires Departs(config, a) && SameMotion(a, b) && !a.state.Starting? && !IsSpawningState(a.state)
    ensures Departs(config, b)
  {
    hide NextState, Moving, SameMotion;
    NextAgrees(config, a, b);
    var da, db := NextState(config, a).value, NextState(config, b).value;
    forall luck: Luck ensures Moving(config, db.job, db.target, luck) {
      assert Moving(config, da.job, da.target, luck);
      MovingAgrees(config, da.job, db.job, da.target, luck);
    }
  }

  lemma RestAgree(config: Config, a: Job, b: Job)
    requires JobOk(config, a) && SameMotion(a, b) && !a.state.Starting? && !a.state.Security?
    ensures JobOk(config, b)
  {
  }

  /** Away from the natural rest states a goal is just set. */
  lemma PlainGoal(s: Sys, j: JobId, goal: Goal, w: World, luck: Oracle)
    requires LiveJob(s, j) && !goal.Start? && !s.jobs[j].state.Waiting? && !(goal.Stop? && s.jobs[j].state.Running?)
    ensures ChangeGoal(s, j, goal, w, luck) == Ok(SetJob(s, j, s.jobs[j].(goal := goal)))
  {
    assert s.jobs[j].goal == goal ==> SetJob(s, j, s.jobs[j].(goal := goal)) == s;
  }

  lemma FailReady(s: Sys, j: JobId, p: Option<Process>, status: int)
    requires Ready(s, j)
    ensures JobFailed(s, j, p, status).Ok?
    ensures var r := JobFailed(s, j, p, status).value;
            && Ready(r, j) && Touches(s, r, j) && SameMotion(s.jobs[j], r.jobs[j]) && r.classes == s.classes
            && Exact(s, r, j, Blamed(s.jobs[j], true, p, status), Dragged(s.jobs[j], true))
  {
    hide Base, OthersAtRest, JobFailed;
    FailTouches(s, j, p, status);
    var r, es := JobFailed(s, j, p, status).value, Dragged(s.jobs[j], true);
    assert forall e :: 0 <= e < |s.events| ==> r.events[e].failed == (s.events[e].failed || e in es);
  }

  function GoalAfter(job: Job, v: Verdict): Goal { if v.stop then Stop else job.goal }

  /** The failure is recorded, if there is one. */
  lemma MaybeFailed(s: Sys, j: JobId, p: Process, status: int, v: Verdict) returns (s1: Sys)
    requires Ready(s, j)
    ensures (if v.failed then JobFailed(s, j, Some(p), status) else Ok(s)) == Ok(s1)
    ensures Ready(s1, j) && Touches(s, s1, j) && s1.classes == s.classes && s1.jobs[j].cls == s.jobs[j].cls
    ensures SameMotion(s.jobs[j], s1.jobs[j])
    ensures Exact(s, s1, j, Blamed(s.jobs[j], v.failed, Some(p), status), Dragged(s.jobs[j], v.failed))
  {
    hide Ready, JobFailed, Touches;
    LiveReady(s, j);
    s1 := s;
    if v.failed {
      FailReady(s, j, Some(p), status);
      s1 := JobFailed(s, j, Some(p), status).value;
    } else {
      SelfTouches(s, j);
    }
  }

  /** The job after its failure, if there is one, has been recorded and its goal set. */
  function Judged(job: Job, v: Verdict, p: Process, status: int): Job {
    Blamed(job, v.failed, Some(p), status).(goal := GoalAfter(job, v))
  }

  /** The first two steps after reaping: the failure is recorded and the goal set. */
  lemma Recorded(s: Sys, j: JobId, p: Process, status: int, v: Verdict, w: World, luck: Oracle) returns (s2: Sys)
    requires Ready(s, j) && !s.jobs[j].state.Waiting? && !(v.stop && s.jobs[j].state.Running?)
    ensures Ready(s2, j) && Touches(s, s2, j) && s2.classes == s.classes && s2.jobs[j].cls == s.jobs[j].cls
    ensures SameMotion(s.jobs[j].(goal := GoalAfter(s.jobs[j], v)), s2.jobs[j])
    ensures Exact(s, s2, j, Judged(s.jobs[j], v, p, status), Dragged(s.jobs[j], v.failed))
    ensures AfterReaping(s, j, p, status, v, w, luck) ==
            if v.stop && s2.jobs[j].state.Running? then Ok(s2)
            else if v.advance then AdvanceJob(s2, j, w, luck) else Ok(s2)
  {
    hide Ready, JobFailed, Touches, AdvanceJob, ChangeGoal, Marks;
    LiveReady(s, j);
    var s1 := MaybeFailed(s, j, p, status, v);
    LiveReady(s1, j);
    s2 := s1;
    if v.stop {
      PlainGoal(s1, j, Stop, w, luck);
      s2 := SetJob(s1, j, s1.jobs[j].(goal := Stop));
      ReadyLocal(s1, j, s1.jobs[j].(goal := Stop));
      TouchesChain(s, s1, s2, j);
      LiveReady(s2, j);
      MarksSame(s, s1, s2, Dragged(s.jobs[j], v.failed));
    }
  }

  lemma LiveReady(s: Sys, j: JobId)
    requires Ready(s, j)
    ensures LiveJob(s, j) && LiveClass(s, s.jobs[j].cls)
  {
  }

  lemma SelfTouches(s: Sys, j: JobId)
    requires LiveJob(s, j)
    ensures Touches(s, s, j)
  {
    LocalTouches(s, j, s.jobs[j]);
    assert SetJob(s, j, s.jobs[j]) == s;
  }

  lemma ReapedAdvances(s: Sys, j: JobId, p: Process, status: int, v: Verdict, w: World, luck: Oracle)
    requires Ready(s, j) && v.advance && !s.jobs[j].state.Waiting? && !s.jobs[j].state.Starting?
    requires !IsSpawningState(s.jobs[j].state)
    requires !(v.stop && s.jobs[j].state.Running?)
    requires Departs(s.classes[s.jobs[j].cls].config, s.jobs[j].(goal := GoalAfter(s.jobs[j], v)))
    ensures Good(s, AfterReaping(s, j, p, status, v, w, luck), j)
    ensures AfterReaping(s, j, p, status, v, w, luck).Ok?
    ensures Moves(s, AfterReaping(s, j, p, status, v, w, luck).value, j, Judged(s.jobs[j], v, p, status),
                  Dragged(s.jobs[j], v.failed), w, luck)
    ensures RunsAfter(s.classes[s.jobs[j].cls].config, s.jobs[j].(goal := GoalAfter(s.jobs[j], v)),
                      AfterReaping(s, j, p, status, v, w, luck).value, j)
  {
    hide Ready, Good, AfterReaping, AdvanceJob, Departs, Touches, MovedOn, Marks;
    LiveReady(s, j);
    var s2 := Recorded(s, j, p, status, v, w, luck);
    LiveReady(s2, j);
    DepartsAgree(s.classes[s.jobs[j].cls].config, s.jobs[j].(goal := GoalAfter(s.jobs[j], v)), s2.jobs[j]);
    AdvanceGood(s2, j, w, luck);
    GoodOk(s2, AdvanceJob(s2, j, w, luck), j);
    GoodChain(s, s2, AdvanceJob(s2, j, w, luck), j);
    ExactMoves(s, s2, AdvanceJob(s2, j, w, luck).value, j, s2.jobs[j], Dragged(s.jobs[j], v.failed), w, luck);
  }

  lemma ReapedRests(s: Sys, j: JobId, p: Process, status: int, v: Verdict, w: World, luck: Oracle)
    requires Ready(s, j) && !v.advance && !s.jobs[j].state.Waiting? && !s.jobs[j].state.Running?
    requires !s.jobs[j].state.Starting? && !s.jobs[j].state.Security?
    requires JobOk(s.classes[s.jobs[j].cls].config, s.jobs[j].(goal := GoalAfter(s.jobs[j], v)))
    ensures Good(s, AfterReaping(s, j, p, status, v, w, luck), j)
    ensures AfterReaping(s, j, p, status, v, w, luck).Ok?
    ensures var r := AfterReaping(s, j, p, status, v, w, luck).value;
            LiveJob(r, j) && r.jobs[j].state == s.jobs[j].state
            && Exact(s, r, j, Judged(s.jobs[j], v, p, status), Dragged(s.jobs[j], v.failed))
  {
    hide Ready, Good, AfterReaping, AdvanceJob, JobOk, Touches;
    LiveReady(s, j);
    var s2 := Recorded(s, j, p, status, v, w, luck);
    LiveReady(s2, j);
    RestAgree(s.classes[s.jobs[j].cls].config, s.jobs[j].(goal := GoalAfter(s.jobs[j], v)), s2.jobs[j]);
    RestsNow(s2, j);
    GoodChain(s, s2, Ok(s2), j);
  }

  /**
   The main process of a running job died and the job is to stop: the change of
   goal moves the job to stopping, where it is blocked, so the second change of
   state does nothing and the death has moved the job once.
   */
  lemma ReapedStops(s: Sys, j: JobId, p: Process, status: int, v: Verdict, w: World, luck: Oracle)
    requires Ready(s, j) && v.stop && v.advance && s.jobs[j].state.Running? && s.jobs[j].goal.Start?
    requires MainProcess !in s.jobs[j].procs
    requires Departs(s.classes[s.jobs[j].cls].config, s.jobs[j].(goal := Stop))
    ensures Good(s, AfterReaping(s, j, p, status, v, w, luck), j)
    ensures AfterReaping(s, j, p, status, v, w, luck).Ok?
    ensures var r := AfterReaping(s, j, p, status, v, w, luck);
            LiveJob(r.value, j) && r.value.jobs[j].state.Stopping?
    ensures Moves(s, AfterReaping(s, j, p, status, v, w, luck).value, j, Judged(s.jobs[j], v, p, status),
                  Dragged(s.jobs[j], v.failed), w, luck)
  {
    hide Ready, Good, Touches, Departs, JobFailed, Inv, ChangeGoal, AdvanceJob, MovedOn, Marks;
    LiveReady(s, j);
    var s1 := MaybeFailed(s, j, p, status, v);
    LiveReady(s1, j);
    var config := s.classes[s.jobs[j].cls].config;
    var stopped := s1.jobs[j].(goal := Stop);
    DepartsAgree(config, s.jobs[j].(goal := Stop), stopped);
    ReadyLocal(s1, j, stopped);
    var s1' := SetJob(s1, j, stopped);
    LiveReady(s1', j);
    TouchesChain(s, s1, s1', j);
    StopsAtOnce(s1', j, w, luck);
    GoodOk(s1', AdvanceJob(s1', j, w, luck), j);
    var r := AdvanceJob(s1', j, w, luck).value;
    GoodChain(s, s1', Ok(r), j);
    MarksSame(s, s1, s1', Dragged(s.jobs[j], v.failed));
    ExactMoves(s, s1', r, j, stopped, Dragged(s.jobs[j], v.failed), w, luck);
    RunningGoal(s1, j, w, luck);
    BlockedAdvance(r, j, w, luck);
  }

  lemma GoodOk(s: Sys, r: Result<Sys, Trap>, j: JobId)
    requires Good(s, r, j)
    ensures r.Ok?
  {
  }

  lemma RunningGoal(s: Sys, j: JobId, w: World, luck: Oracle)
    requires LiveJob(s, j) && s.jobs[j].state.Running? && s.jobs[j].goal.Start?
    ensures ChangeGoal(s, j, Stop, w, luck) == AdvanceJob(SetJob(s, j, s.jobs[j].(goal := Stop)), j, w, luck)
  {
    hide AdvanceJob;
  }

  lemma StopsAtOnce(s: Sys, j: JobId, w: World, luck: Oracle)
    requires Ready(s, j) && s.jobs[j].state.Running? && s.jobs[j].goal.Stop? && MainProcess !in s.jobs[j].procs
    requires Departs(s.classes[s.jobs[j].cls].config, s.jobs[j])
    ensures Good(s, AdvanceJob(s, j, w, luck), j)
    ensures Moves(s, AdvanceJob(s, j, w, luck).value, j, s.jobs[j], [], w, luck)
    ensures var r := AdvanceJob(s, j, w, luck).value;
            LiveJob(r, j) && LiveClass(r, r.jobs[j].cls) && r.jobs[j].state.Stopping? && r.jobs[j].blocker.Some?
              && !r.jobs[j].goal.Respawning?
  {
    hide Base, OthersAtRest, AdvanceJob, Touches, Departs, MovedOn, Marks;
    AdvanceKeeps(s, j, w, luck);
    AdvanceArrives(s, j, w, luck);
    var r := AdvanceJob(s, j, w, luck).value;
    assert JobAtRest(r, j);
  }

  lemma BlockedAdvance(s: Sys, j: JobId, w: World, luck: Oracle)
    requires LiveJob(s, j) && LiveClass(s, s.jobs[j].cls)
    requires s.jobs[j].state.Stopping? && s.jobs[j].blocker.Some? && !s.jobs[j].goal.Respawning?
    ensures AdvanceJob(s, j, w, luck) == Ok(s)
  {
    hide Settle, Perform;
    assert SetJob(s, j, s.jobs[j]) == s;
  }

  // ---- A process dies ----

  /** The job before its pid is cleared, unless its main process is replaced by way of stopping. */
  function Foreseen(v: Verdict): Job {
    Blamed(v.job, v.runaway, None, 0).(
      goal := if v.respawning && !v.advance && !v.runaway then Respawning else v.job.goal)
  }

  /** The part before the pid is cleared, unless the main process is replaced by way of stopping. */
  lemma BeforeKeeps(s: Sys, j: JobId, v: Verdict, w: World, luck: Oracle) returns (r: Sys)
    requires Ready(s, j) && SameLinks(s.jobs[j], v.job) && !v.job.state.Waiting?
    requires !(v.respawning && v.job.state.Spawned?)
    ensures BeforeReaping(s, j, v, w, luck) == Ok(r) && Ready(r, j) && Touches(s, r, j)
    ensures r.classes == s.classes && r.jobs[j].cls == s.jobs[j].cls
    ensures SameMotion(v.job.(goal := if v.respawning && !v.advance && !v.runaway then Respawning
            else v.job.goal), r.jobs[j])
    ensures Exact(s, r, j, Foreseen(v), Dragged(v.job, v.runaway))
  {
    hide Ready, JobFailed, Touches, Marks;
    LiveReady(s, j);
    ReadyLocal(s, j, v.job);
    ExactLocal(s, j, v.job);
    r := SetJob(s, j, v.job);
    LiveReady(r, j);
    if v.runaway {
      FailReady(r, j, None, 0);
      TouchesChain(s, r, JobFailed(r, j, None, 0).value, j);
      MarksHere(s, r, JobFailed(r, j, None, 0).value, Dragged(v.job, true));
      r := JobFailed(r, j, None, 0).value;
      assert Foreseen(v) == Blamed(v.job, true, None, 0);
    } else if v.respawning && !v.advance {
      PlainGoal(r, j, Respawning, w, luck);
      var s1 := r;
      r := SetJob(s1, j, v.job.(goal := Respawning));
      ReadyLocal(s1, j, v.job.(goal := Respawning));
      ExactLocal(s, j, v.job.(goal := Respawning));
      TouchesChain(s, s1, r, j);
      assert r == SetJob(s, j, v.job.(goal := Respawning));
    } else {
      assert Foreseen(v) == v.job;
    }
  }

  lemma ReapedReady(s: Sys, j: JobId, p: Process)
    requires Ready(s, j)
    ensures Ready(SetJob(s, j, Reaped(s.jobs[j], p)), j) && Touches(s, SetJob(s, j, Reaped(s.jobs[j], p)), j)
  {
    hide Ready, Touches;
    LiveReady(s, j);
    ReadyLocal(s, j, Reaped(s.jobs[j], p));
  }

  /** What DeathVerdict says of the main process. */
  predicate MainVerdict(job: Job, v: Verdict) {
    && v.job == job.(window := v.job.window)
    && (v.failed ==> v.stop) && (v.runaway ==> v.stop) && (v.respawning ==> !v.stop) && !(v.failed && v.runaway)
    && (v.respawning || v.stop ==> job.goal.Start?)
    && (job.state.PostStart? || job.state.PreStop? || job.state.Stopping? ==> !v.advance)
    && ((job.state.PostStart? || job.state.PreStop?) && job.goal.Start? ==> v.stop || v.respawning)
    && (job.state.Running? || job.state.Killed? ==> v.advance)
    && (job.state.Spawned? ==> (v.advance <==> !v.respawning))
    && (job.state.Spawned? && !v.respawning && !v.stop ==> job.goal.Stop?)
    && (job.state.Stopping? || job.state.Killed? ==> !v.stop && !v.respawning)
  }

  /** The main process is gone and the job has the goal it will have. */
  lemma MainGone(s: Sys, j: JobId, job: Job, status: int, v: Verdict, w: World, luck: Oracle)
    requires Ready(s, j) && MainVerdict(job, v) && !(v.respawning && job.state.Spawned?)
    requires JobOk(s.classes[s.jobs[j].cls].config, job) && MainProcess in job.procs
    requires SameMotion(Reaped(job, MainProcess).(goal := if v.respawning && !v.advance then Respawning else job.goal),
             s.jobs[j])
    ensures Good(s, AfterReaping(s, j, MainProcess, status, v, w, luck), j)
    ensures AfterReaping(s, j, MainProcess, status, v, w, luck).Ok?
    ensures NotRunning(AfterReaping(s, j, MainProcess, status, v, w, luck).value, j)
    ensures Concludes(s, AfterReaping(s, j, MainProcess, status, v, w, luck).value, j, s.jobs[j], v, MainProcess,
            status, [], w, luck)
  {
    hide Ready, Good, AfterReaping, Departs, Steady, MovedOn, Marks, Judged;
    LiveReady(s, j);
    assert [] + Dragged(s.jobs[j], v.failed) == Dragged(s.jobs[j], v.failed);
    MainWhere(s.classes[s.jobs[j].cls].config, job);
    var config := s.classes[s.jobs[j].cls].config;
    var goal := if v.stop then Stop else s.jobs[j].goal;
    var gone := Reaped(job, MainProcess).(goal := goal);
    if !v.advance {
      MainDiesQuietly(config, job, goal);
      RestAgree(config, gone, s.jobs[j].(goal := goal));
      ReapedRests(s, j, MainProcess, status, v, w, luck);
    } else {
      MainDeparts(config, job, goal);
      DepartsAgree(config, gone, s.jobs[j].(goal := goal));
      if v.stop && job.state.Running? {
        ReapedStops(s, j, MainProcess, status, v, w, luck);
      } else {
        ReapedAdvances(s, j, MainProcess, status, v, w, luck);
      }
    }
  }

  /** What follows from the verdict, once the pid is cleared: the job moves on, or stays where it is. */
  ghost predicate Concludes(s: Sys, r: Sys, j: JobId, gone: Job, v: Verdict, p: Process, status: int, es: seq<EventId>,
                            w: World, luck: Oracle) {
    if v.advance then Moves(s, r, j, Judged(gone, v, p, status), es + Dragged(gone, v.failed), w, luck)
    else Exact(s, r, j, Judged(gone, v, p, status), es + Dragged(gone, v.failed))
  }

  predicate NotRunning(s: Sys, j: JobId) { LiveJob(s, j) ==> !s.jobs[j].state.Running? }

  lemma MainWhere(config: Config, job: Job)
    requires JobOk(config, job) && MainProcess in job.procs
    ensures MainProcess in config.processes
    ensures MayHaveMain(job.state) && (job.state.Running? ==> job.goal.Start?) && (job.goal.Respawning? ==> false)
  {
  }

  /**
   What a death comes to: the job is held up in stopping, or the verdict is carried out on
   the job without the process.
   */
  ghost predicate DiesAs(s: Sys, r: Sys, j: JobId, p: Process, status: int, v: Verdict, w: World, luck: Oracle) {
    if v.respawning && v.job.state.Spawned?
    then HeldUp(s, r, j, v.job, v.job.procs - {p}, v.job.setup - {p}, w)
    else Concludes(s, r, j, Reaped(Foreseen(v), p), v, p, status, Dragged(v.job, v.runaway), w, luck)
  }

  lemma ConcludesLater(a: Sys, b: Sys, r: Sys, j: JobId, gone: Job, v: Verdict, p: Process, status: int,
                       es: seq<EventId>, w: World, luck: Oracle)
    requires Exact(a, b, j, gone, es) && Concludes(b, r, j, gone, v, p, status, [], w, luck)
    requires es == [] || Dragged(gone, v.failed) == []
    ensures Concludes(a, r, j, gone, v, p, status, es, w, luck)
  {
    hide Marks, MovedOn, Judged, Dragged;
    var fs := Dragged(gone, v.failed);
    assert [] + fs == fs;
    if v.advance {
      MovesLater(a, b, r, j, gone, Judged(gone, v, p, status), es, fs, w, luck);
    } else {
      ExactChain(a, b, r, j, gone, Judged(gone, v, p, status), es, fs);
    }
  }

  lemma MainDies(s: Sys, j: JobId, status: int, v: Verdict, w: World, luck: Oracle)
    requires Ready(s, j) && JobOk(s.classes[s.jobs[j].cls].config, s.jobs[j])
    requires MainProcess in s.jobs[j].procs && MainProcess !in s.jobs[j].setup && MainVerdict(s.jobs[j], v)
    ensures BeforeReaping(s, j, v, w, luck).Ok?
    ensures var r := BeforeReaping(s, j, v, w, luck).value;
            && LiveJob(r, j)
            && var last := AfterReaping(SetJob(r, j, Reaped(r.jobs[j], MainProcess)), j, MainProcess, status, v, w,
               luck);
               && Good(s, last, j) && last.Ok? && NotRunning(last.value, j)
               && DiesAs(s, last.value, j, MainProcess, status, v, w, luck)
  {
    hide Ready, Good, AfterReaping, BeforeReaping, Steady, Touches, Marks, Concludes, HeldUp;
    LiveReady(s, j);
    var job := s.jobs[j];
    MainWhere(s.classes[job.cls].config, job);
    if v.respawning && job.state.Spawned? {
      ReplacedByStopping(s, j, status, v, w, luck);
    } else {
      var r := BeforeKeeps(s, j, v, w, luck);
      LiveReady(r, j);
      ReapedReady(r, j, MainProcess);
      var r' := SetJob(r, j, Reaped(r.jobs[j], MainProcess));
      TouchesChain(s, r, r', j);
      MarksSame(s, r, r', Dragged(v.job, v.runaway));
      MainGone(r', j, job, status, v, w, luck);
      GoodChain(s, r', AfterReaping(r', j, MainProcess, status, v, w, luck), j);
      ConcludesLater(s, r', AfterReaping(r', j, MainProcess, status, v, w, luck).value, j, r'.jobs[j], v, MainProcess,
        status,
        Dragged(v.job, v.runaway), w, luck);
    }
  }

  /** A main process that dies before it is up and is to be replaced: the job is in stopping when the pid is cleared. */
  lemma ReplacedByStopping(s: Sys, j: JobId, status: int, v: Verdict, w: World, luck: Oracle)
    requires Ready(s, j) && JobOk(s.classes[s.jobs[j].cls].config, s.jobs[j])
    requires MainProcess in s.jobs[j].procs && MainProcess !in s.jobs[j].setup && MainVerdict(s.jobs[j], v)
    requires v.respawning && s.jobs[j].state.Spawned?
    ensures BeforeReaping(s, j, v, w, luck).Ok?
    ensures var r := BeforeReaping(s, j, v, w, luck).value;
            && LiveJob(r, j) && r.jobs[j].state.Stopping? && r.jobs[j].blocker.Some? && MainProcess in r.jobs[j].procs
            && var last := AfterReaping(SetJob(r, j, Reaped(r.jobs[j], MainProcess)), j, MainProcess, status, v, w,
               luck);
               && Good(s, last, j) && last.Ok? && LiveJob(last.value, j) && last.value.jobs[j].state.Stopping?
               && MainProcess !in last.value.jobs[j].procs
               && HeldUp(s, last.value, j, v.job, v.job.procs - {MainProcess}, v.job.setup - {MainProcess}, w)
  {
    hide Ready, Good, Steady, Touches, Moving, ChangeState, Inv, Marks;
    LiveReady(s, j);
    ReadyLocal(s, j, v.job);
    var s1 := SetJob(s, j, v.job);
    var config := s.classes[s.jobs[j].cls].config;
    RestAgree(config, s.jobs[j], v.job);
    RespawnMoves(config, v.job);
    StoppingNow(s1, j, w, luck);
    var r := ChangeState(s1, j, Stopping, w, luck).value;
    LiveReady(r, j);
    TouchesChain(s, s1, r, j);
    MainDiesQuietly(config, r.jobs[j], r.jobs[j].goal);
    ReapedReady(r, j, MainProcess);
    var r' := SetJob(r, j, Reaped(r.jobs[j], MainProcess));
    TouchesChain(s, r, r', j);
    RestsNow(r', j);
    GoodChain(s, r', Ok(r'), j);
    NoTimer(config, s.jobs[j]);
    MarksHere(s, s1, r, []);
    MarksSame(s, r, r', []);
  }

  lemma NoTimer(config: Config, job: Job)
    requires JobOk(config, job)
    ensures job.killTimer ==> job.state.Killed?
  {
  }

  lemma StoppingNow(s: Sys, j: JobId, w: World, luck: Oracle)
    requires Ready(s, j) && Moving(s.classes[s.jobs[j].cls].config, s.jobs[j], Stopping, luck(j, |s.events|))
    requires MainProcess in s.jobs[j].procs
    ensures ChangeState(s, j, Stopping, w, luck).Ok?
    ensures HeldUp(s, ChangeState(s, j, Stopping, w, luck).value, j, s.jobs[j], s.jobs[j].procs, s.jobs[j].setup, w)
    ensures var r := ChangeState(s, j, Stopping, w, luck).value;
            && Ready(r, j) && Touches(s, r, j) && r.jobs[j].state.Stopping? && MainProcess in r.jobs[j].procs
            && r.jobs[j].cls == s.jobs[j].cls && r.classes == s.classes
            && JobOk(s.classes[s.jobs[j].cls].config, r.jobs[j])
  {
    hide Base, OthersAtRest, ChangeState, Moving, Steady, HeldUp;
    ChangeStateKeeps(s, j, Stopping, w, luck);
    MovingApart(s.classes[s.jobs[j].cls].config, s.jobs[j], Stopping, luck(j, |s.events|));
    StoppingExactly(s, j, w, luck);
    var r := ChangeState(s, j, Stopping, w, luck).value;
    ReadyAtRest(r, j);
  }

  /**
   The end of a process as far as running is concerned: a script hands the job over to where
   its goal leads; no other process leaves a job running whose class has a main process.
   */
  ghost predicate Ends(s: Sys, j: JobId, p: Process, r: Result<Sys, Trap>)
    requires LiveJob(s, j)
  {
    && r.Ok? && LiveClass(s, s.jobs[j].cls)
    && if p.PostStartProcess? || p.PreStopProcess?
       then RunsAfter(s.classes[s.jobs[j].cls].config, Reaped(s.jobs[j], p), r.value, j)
       else MainProcess in s.classes[s.jobs[j].cls].config.processes ==> NotRunning(r.value, j)
  }

  /** job_process_terminated: none of its assertions fails, and the invariant holds again. */
  lemma TerminatedKeeps(s: Sys, j: JobId, p: Process, status: int, now: int, disabled: bool, w: World, luck: Oracle)
    requires Inv(s) && LiveJob(s, j) && p in s.jobs[j].procs && p !in s.jobs[j].setup
    ensures LiveClass(s, s.jobs[j].cls)
    ensures Good(s, Terminated(s, j, p, status, now, disabled, w, luck), j)
    ensures Ends(s, j, p, Terminated(s, j, p, status, now, disabled, w, luck))
    ensures Death(s.classes[s.jobs[j].cls].config, s.jobs[j], p, status, now, disabled).Ok?
    ensures var v := Death(s.classes[s.jobs[j].cls].config, s.jobs[j], p, status, now, disabled).value;
            DiesAs(s, Terminated(s, j, p, status, now, disabled, w, luck).value, j, p, status, v, w, luck)
  {
    hide Ready, Good, AfterReaping, BeforeReaping, Touches, Inv, Death, DiesAs;
    ReadyAtRest(s, j);
    LiveReady(s, j);
    var job := s.jobs[j];
    DeathVerdict(s.classes[job.cls].config, job, p, status, now, disabled);
    var v := Death(s.classes[job.cls].config, job, p, status, now, disabled).value;
    if p == MainProcess {
      MainDies(s, j, status, v, w, luck);
    } else {
      ScriptDies(s, j, p, status, v, w, luck);
    }
  }

  lemma ScriptDies(s: Sys, j: JobId, p: Process, status: int, v: Verdict, w: World, luck: Oracle)
    requires Ready(s, j) && JobOk(s.classes[s.jobs[j].cls].config, s.jobs[j])
    requires p in s.jobs[j].procs && p != MainProcess
    requires v.job == s.jobs[j].(window := v.job.window) && v.advance && !v.runaway && !v.respawning
    ensures BeforeReaping(s, j, v, w, luck).Ok?
    ensures var r := BeforeReaping(s, j, v, w, luck).value;
            && LiveJob(r, j)
            && var last := AfterReaping(SetJob(r, j, Reaped(r.jobs[j], p)), j, p, status, v, w, luck);
               && Good(s, last, j) && last.Ok?
               && RunsAfter(s.classes[s.jobs[j].cls].config, Reaped(s.jobs[j], p).(goal := GoalAfter(s.jobs[j], v)),
                  last.value, j)
               && DiesAs(s, last.value, j, p, status, v, w, luck)
  {
    hide Ready, Good, AfterReaping, BeforeReaping, Touches, Departs, Marks, MovedOn, Judged;
    LiveReady(s, j);
    var job := s.jobs[j];
    var config := s.classes[job.cls].config;
    assert job.state == HomeOf(p);
    var r := BeforeKeeps(s, j, v, w, luck);
    LiveReady(r, j);
    ReapedReady(r, j, p);
    var r' := SetJob(r, j, Reaped(r.jobs[j], p));
    TouchesChain(s, r, r', j);
    var goal := GoalAfter(r'.jobs[j], v);
    ScriptDeparts(config, job, p, goal);
    DepartsAgree(config, Reaped(job, p).(goal := goal), r'.jobs[j].(goal := goal));
    MarksSame(s, r, r', Dragged(v.job, v.runaway));
    ReapedAdvances(r', j, p, status, v, w, luck);
    GoodChain(s, r', AfterReaping(r', j, p, status, v, w, luck), j);
    assert [] + Dragged(r'.jobs[j], v.failed) == Dragged(r'.jobs[j], v.failed);
    ConcludesLater(s, r', AfterReaping(r', j, p, status, v, w, luck).value, j, r'.jobs[j], v, p, status,
      Dragged(v.job, v.runaway), w, luck);
  }

  // ---- A process reports ----

  /** The way on after a process is gone; its kill timer is not running. */
  lemma GoneDeparts(config: Config, job: Job, p: Process, goal: Goal)
    requires JobOk(config, job) && p in job.setup && (goal == job.goal || goal.Stop?)
    requires p == MainProcess ==> goal.Stop?
    ensures Reaped(job, p) == job.(procs := job.procs - {p}, setup := job.setup - {p})
    ensures Departs(config, Reaped(job, p).(goal := goal))
    ensures !job.state.Waiting? && !job.state.Running? && !job.state.Starting? && !IsSpawningState(job.state)
    ensures p.SecurityProcess? <==> job.state.Security?
  {
    hide Departs;
    if p == MainProcess { MainDeparts(config, job, goal); } else { ScriptDeparts(config, job, p, goal); }
  }

  /** job_child_error_handler */
  lemma ChildErrorKeeps(s: Sys, j: JobId, p: Process, w: World, luck: Oracle)
    requires Inv(s) && LiveJob(s, j) && p in s.jobs[j].setup
    ensures Good(s, ChildError(s, j, p, w, luck), j) && Ends(s, j, p, ChildError(s, j, p, w, luck))
    ensures ChildError(s, j, p, w, luck).Ok? && Unprepared(s, ChildError(s, j, p, w, luck).value, j, p, w, luck)
  {
    hide Ready, Good, Touches, Inv, Departs, AdvanceJob, JobOk, JobFailed, ChangeGoal, AfterReaping, MovedOn, Marks;
    ReadyAtRest(s, j);
    LiveReady(s, j);
    var job := s.jobs[j];
    var config := s.classes[job.cls].config;
    GoneDeparts(config, job, p, Stop);
    ReapedReady(s, j, p);
    var s1 := SetJob(s, j, Reaped(job, p));
    LiveReady(s1, j);
    ExactLocal(s, j, Reaped(job, p));
    if p.PostStartProcess? || p.PreStopProcess? {
      GoneDeparts(config, job, p, job.goal);
      assert Reaped(job, p).(goal := job.goal) == Reaped(job, p);
      AdvanceGood(s1, j, w, luck);
      GoodChain(s, s1, AdvanceJob(s1, j, w, luck), j);
      GoodOk(s1, AdvanceJob(s1, j, w, luck), j);
      ExactMoves(s, s1, AdvanceJob(s1, j, w, luck).value, j, s1.jobs[j], [], w, luck);
    } else if p.SecurityProcess? {
      SecurityFails(s, j, w, luck);
      GoodOk(s, ChildError(s, j, p, w, luck), j);
    } else {
      var v := Verdict(job, true, true, true, false, false);
      ReapedAdvances(s1, j, p, -1, v, w, luck);
      AsReaped(s1, j, p, v, w, luck);
      GoodChain(s, s1, AfterReaping(s1, j, p, -1, v, w, luck), j);
      var es := Dragged(s1.jobs[j], true);
      assert [] + es == es;
      MovesLater(s, s1, AfterReaping(s1, j, p, -1, v, w, luck).value, j, s1.jobs[j], Judged(s1.jobs[j], v, p, -1), [],
        es, w, luck);
    }
  }

  /** What comes of a process that could not be set up. */
  ghost predicate Unprepared(s: Sys, r: Sys, j: JobId, p: Process, w: World, luck: Oracle)
    requires LiveJob(s, j)
  {
    var gone := s.jobs[j].(procs := s.jobs[j].procs - {p}, setup := s.jobs[j].setup - {p});
    var blamed := Blamed(gone, true, Some(p), -1).(goal := Stop);
    if p.PostStartProcess? || p.PreStopProcess? then Moves(s, r, j, gone, [], w, luck)
    else if p.SecurityProcess? then Exact(s, r, j, blamed, Dragged(gone, true))
    else Moves(s, r, j, blamed, Dragged(gone, true), w, luck)
  }

  /** Apart from the security process, a setup failure is handled like a death with failure. */
  lemma AsReaped(s: Sys, j: JobId, p: Process, v: Verdict, w: World, luck: Oracle)
    requires Ready(s, j) && !s.jobs[j].state.Waiting? && !s.jobs[j].state.Running? && v.failed && v.stop && v.advance
    ensures JobFailed(s, j, Some(p), -1).Ok?
    ensures var s2 := JobFailed(s, j, Some(p), -1).value;
            && ChangeGoal(s2, j, Stop, w, luck).Ok?
            && AfterReaping(s, j, p, -1, v, w, luck) == AdvanceJob(ChangeGoal(s2, j, Stop, w, luck).value, j, w, luck)
  {
    hide Ready, JobFailed, Touches, AdvanceJob, ChangeGoal;
    var s1 := MaybeFailed(s, j, p, -1, v);
    LiveReady(s1, j);
    PlainGoal(s1, j, Stop, w, luck);
  }

  /** The security process could not be set up: the job fails and stays where it is, without a process. */
  lemma SecurityFails(s: Sys, j: JobId, w: World, luck: Oracle)
    requires Inv(s) && LiveJob(s, j) && SecurityProcess in s.jobs[j].setup
    ensures Good(s, ChildError(s, j, SecurityProcess, w, luck), j)
    ensures var r := ChildError(s, j, SecurityProcess, w, luck).value;
            && LiveJob(r, j) && r.jobs[j].state.Security? && r.jobs[j].procs == {} && r.jobs[j].goal.Stop?
            && Unprepared(s, r, j, SecurityProcess, w, luck)
  {
    hide Base, OthersAtRest, Touches, Inv, JobFailed, ChangeGoal, Marks;
    ReadyAtRest(s, j);
    var job := s.jobs[j];
    OnlyMain(s.classes[job.cls].config, job, SecurityProcess);
    var gone := job.(procs := {}, setup := {});
    assert job.procs - {SecurityProcess} == {} && job.setup - {SecurityProcess} == {};
    ReadyLocal(s, j, gone);
    var s1 := SetJob(s, j, gone);
    FailReady(s1, j, Some(SecurityProcess), -1);
    var s2 := JobFailed(s1, j, Some(SecurityProcess), -1).value;
    TouchesChain(s, s1, s2, j);
    PlainGoal(s2, j, Stop, w, luck);
    var stopped := s2.jobs[j].(goal := Stop);
    ReadyLocal(s2, j, stopped);
    var s3 := SetJob(s2, j, stopped);
    TouchesChain(s, s2, s3, j);
    RestsNow(s3, j);
    GoodChain(s, s3, Ok(s3), j);
    MarksHere(s, s1, s2, Dragged(gone, true));
    MarksSame(s, s2, s3, Dragged(gone, true));
  }

  /** If the job runs, it has its main process. */
  predicate RunsWithMain(s: Sys, j: JobId) { LiveJob(s, j) && s.jobs[j].state.Running? ==>
      MainProcess in s.jobs[j].procs }

  /** The main process is up. */
  lemma MainReadyKeeps(s: Sys, j: JobId, w: World, luck: Oracle)
    requires Ready(s, j) && JobOk(s.classes[s.jobs[j].cls].config, s.jobs[j])
    requires s.jobs[j].state.Spawned? && MainProcess !in s.jobs[j].setup
    ensures Good(s, AdvanceJob(s, j, w, luck), j)
    ensures LiveJob(AdvanceJob(s, j, w, luck).value, j)
    ensures RunsWithMain(AdvanceJob(s, j, w, luck).value, j)
    ensures Moves(s, AdvanceJob(s, j, w, luck).value, j, s.jobs[j], [], w, luck)
  {
    hide Base, OthersAtRest, Touches, Inv, AdvanceJob, Departs, MovedOn, Marks;
    ReadyDeparts(s.classes[s.jobs[j].cls].config, s.jobs[j]);
    AdvanceKeeps(s, j, w, luck);
    AdvanceArrives(s, j, w, luck);
  }

  /** job_process_close_handler */
  lemma ChildReadyKeeps(s: Sys, j: JobId, p: Process, w: World, luck: Oracle)
    requires Inv(s) && LiveJob(s, j) && p in s.jobs[j].setup
    ensures Good(s, ChildReady(s, j, p, w, luck), j)
    ensures RunsWithMain(ChildReady(s, j, p, w, luck).value, j)
    ensures LiveClass(s, s.jobs[j].cls) && ChildReady(s, j, p, w, luck).Ok?
    ensures Prepared(s, ChildReady(s, j, p, w, luck).value, j, p, w, luck)
  {
    hide Ready, Good, Touches, Inv, AdvanceJob, MovedOn, Marks;
    ReadyAtRest(s, j);
    LiveReady(s, j);
    var job := s.jobs[j];
    var set_ := job.(setup := job.setup - {p});
    ReadyLocal(s, j, set_);
    var s1 := SetJob(s, j, set_);
    LiveReady(s1, j);
    assert JobOk(s.classes[job.cls].config, set_);
    if job.state.Spawned? && s.classes[job.cls].config.expectsNothing && p.MainProcess? {
      MainReadyKeeps(s1, j, w, luck);
      var r := AdvanceJob(s1, j, w, luck);
      GoodChain(s, s1, r, j);
      GoodRests(s1, r, j);
      ExactLocal(s, j, set_);
      ExactMoves(s, s1, r.value, j, set_, [], w, luck);
    } else {
      ExactLocal(s, j, set_);
      RestsNow(s1, j);
      GoodChain(s, s1, Ok(s1), j);
    }
  }

  /** What comes of a process that has been set up. */
  ghost predicate Prepared(s: Sys, r: Sys, j: JobId, p: Process, w: World, luck: Oracle)
    requires LiveJob(s, j) && LiveClass(s, s.jobs[j].cls)
  {
    var job := s.jobs[j].(setup := s.jobs[j].setup - {p});
    if p.MainProcess? && s.classes[job.cls].config.expectsNothing then Moves(s, r, j, job, [], w, luck)
    else Exact(s, r, j, job, [])
  }

  lemma GoodRests(s: Sys, r: Result<Sys, Trap>, j: JobId)
    requires Good(s, r, j)
    ensures r.Ok? && (LiveJob(r.value, j) ==> !IsSpawningState(r.value.jobs[j].state))
  {
    hide Base, Touches;
    assert JobAtRest(r.value, j);
  }

  /** job_process_kill_timer: a timer is only ever pending for a main process that is there. */
  lemma KillTimerKeeps(s: Sys, j: JobId)
    requires Inv(s) && LiveJob(s, j) && s.jobs[j].killTimer
    ensures Good(s, KillTimer(s, j), j)
    ensures KillTimer(s, j).Ok? && Exact(s, KillTimer(s, j).value, j, s.jobs[j].(killTimer := false), [])
  {
    hide Ready, Good, Touches, Inv, Marks;
    ExactLocal(s, j, s.jobs[j].(killTimer := false));
    ReadyAtRest(s, j);
    LiveReady(s, j);
    var job := s.jobs[j].(killTimer := false);
    ReadyLocal(s, j, job);
    RestsNow(SetJob(s, j, job), j);
    GoodChain(s, SetJob(s, j, job), KillTimer(s, j), j);
  }
}

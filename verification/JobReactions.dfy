/** How a job at rest is set in motion: each reaction leaves it at rest again or ready to enter the next state. */
module JobReactions {
  import opened Wrappers
  import opened JobMachine

  /** The decision table has an answer, and the loop may start with it. */
  ghost predicate Departs(config: Config, job: Job) {
    var d := NextState(config, job);
    d.Ok? && SameLinks(job, d.value.job) && forall luck: Luck :: Moving(config, d.value.job, d.value.target, luck)
  }

  /** Live pids besides that of the state's own process can only be that of the main process. */
  lemma OnlyMain(config: Config, job: Job, p: Process)
    requires Steady(config, job) && job.state == HomeOf(p) && p != MainProcess
    ensures job.procs - {p} <= {MainProcess}
    ensures !MayHaveMain(job.state) ==> job.procs - {p} == {}
    ensures job.setup - {p} == {}
  {
    forall q | q in job.procs - {p} ensures q == MainProcess {
      assert q == MainProcess || job.state == HomeOf(q);
    }
  }

  lemma MainOrNothing(config: Config, job: Job)
    requires Steady(config, job)
    requires job.state.Waiting? || job.state.Starting? || job.state.Spawned? || job.state.Running?
             || job.state.Stopping? || job.state.Killed?
    ensures job.procs <= {MainProcess}
    ensures MainProcess !in job.setup ==> job.setup == {}
  {
    forall q | q in job.procs ensures q == MainProcess {
      assert q == MainProcess || job.state == HomeOf(q);
    }
  }

  /** The event a job waited for has finished. */
  lemma WakeDeparts(config: Config, job: Job)
    requires Steady(config, job) && Blocked(job.state) && job.blocker.None?
    ensures Departs(config, job)
  {
    MainOrNothing(config, job);
  }

  /** The goal of a job at one of the two natural rest states changes. */
  lemma GoalDeparts(config: Config, job: Job, goal: Goal)
    requires JobOk(config, job) && ((goal.Start? && job.state.Waiting?) || (goal.Stop? && job.state.Running?))
    ensures Departs(config, job.(goal := goal))
  {
    MainOrNothing(config, job);
  }

  /** Elsewhere a change between start and stop changes nothing else. */
  lemma GoalRests(config: Config, job: Job, goal: Goal)
    requires JobOk(config, job) && !goal.Respawning? && !job.state.Waiting? && !(goal.Stop? && job.state.Running?)
    ensures JobOk(config, job.(goal := goal))
  {
  }

  /** The main process reports that it is up. */
  lemma ReadyDeparts(config: Config, job: Job)
    requires Steady(config, job) && job.state.Spawned? && job.blocker.None? && MainProcess !in job.setup
    ensures Departs(config, job)
  {
    MainOrNothing(config, job);
  }

  /** A process other than the main one is gone. */
  lemma ScriptDeparts(config: Config, job: Job, p: Process, goal: Goal)
    requires JobOk(config, job) && p in job.procs && p != MainProcess
    requires goal == job.goal || goal.Stop?
    ensures Departs(config, job.(killTimer := false, procs := job.procs - {p}, setup := job.setup - {p}, goal := goal))
  {
    hide ProcessAwaited;
    OnlyMain(config, job, p);
  }

  /** The main process could not be set up, or died in a state it alone holds. */
  lemma MainDeparts(config: Config, job: Job, goal: Goal)
    requires JobOk(config, job) && MainProcess in job.procs
    requires job.state.Spawned? || job.state.Running? || job.state.Killed?
    requires job.state.Spawned? ==> goal.Stop?
    requires goal == job.goal || goal.Stop?
    ensures Departs(config,
            job.(killTimer := false, procs := job.procs - {MainProcess}, setup := job.setup - {MainProcess},
              goal := goal))
  {
    MainOrNothing(config, job);
  }

  /** The main process died while a script or the stopping event holds the job where it is. */
  lemma MainDiesQuietly(config: Config, job: Job, goal: Goal)
    requires JobOk(config, job) && MainProcess in job.procs
    requires job.state.PostStart? || job.state.PreStop? || job.state.Stopping?
    requires goal == job.goal || goal.Stop? || (goal.Respawning? && !job.state.Stopping?)
    ensures JobOk(config,
            job.(killTimer := false, procs := job.procs - {MainProcess}, setup := job.setup - {MainProcess},
              goal := goal))
  {
  }

  /** A main process that died before it was up is replaced by way of stopping. */
  lemma RespawnMoves(config: Config, job: Job)
    requires JobOk(config, job) && job.state.Spawned? && job.goal.Start? && MainProcess !in job.setup
    ensures forall luck: Luck :: Moving(config, job, Stopping, luck)
  {
    MainOrNothing(config, job);
  }

  /** What job_process_terminated decides about a job at rest: no assertion of its switch fails. */
  lemma DeathVerdict(config: Config, job: Job, p: Process, status: int, now: int, disabled: bool)
    requires JobOk(config, job) && p in job.procs
    ensures Death(config, job, p, status, now, disabled).Ok?
    ensures var v := Death(config, job, p, status, now, disabled).value;
            && v.job == job.(window := v.job.window)
            && (p != MainProcess ==> v.advance && !v.runaway && !v.respawning && job.state == HomeOf(p))
            && (p.PostStartProcess? || p.PreStopProcess? ==> !v.stop && !v.failed)
            && (p.SecurityProcess? || p.PreStartProcess? || p.PostStopProcess? ==>
                  (v.failed <==> status != 0) && (v.stop <==> status != 0))
            && (v.failed ==> v.stop) && (v.runaway ==> v.stop) && (v.respawning ==> !v.stop) && !(v.failed && v.runaway)
            && (v.respawning || (p == MainProcess && v.stop) ==> job.goal.Start?)
            && (p == MainProcess && (job.state.PostStart? || job.state.PreStop? || job.state.Stopping?) ==> !v.advance)
            && (p == MainProcess && (job.state.PostStart? || job.state.PreStop?) && job.goal.Start? ==>
                 v.stop || v.respawning)
            && (p == MainProcess && (job.state.Running? || job.state.Killed?) ==> v.advance)
            && (p == MainProcess && job.state.Spawned? ==> (v.advance <==> !v.respawning))
            && (p == MainProcess && job.state.Spawned? && !v.respawning && !v.stop ==> job.goal.Stop?)
            && (p == MainProcess && (job.state.Stopping? || job.state.Killed?) ==> !v.stop && !v.respawning)
  {
    hide Moving;
  }
}

/** What the end of a process does to its job: exactly this. */
module ProcessEnds {
  import opened Wrappers
  import opened Condition
  import opened JobMachine
  import opened Respawn
  import opened Supervisor
  import opened SupervisorSteps
  import opened Invariant
  import opened Arrival
  import opened ProcessSteps

  /** The job without a process that has died. */
  function Gone(job: Job, p: Process): Job { job.(killTimer := false, procs := job.procs - {p}) }

  /** A script that must not fail. */
  predicate Vital(p: Process) { p.SecurityProcess? || p.PreStartProcess? || p.PostStopProcess? }

  lemma GoneReaped(job: Job, p: Process)
    requires p !in job.setup
    ensures Reaped(job, p) == Gone(job, p)
  {
    assert job.setup - {p} == job.setup;
  }

  /**
   job_process_terminated, for every process but the main one: the job is blamed, and its goal
   becomes stop, exactly when the script must not fail and its status is not zero; and it goes on
   from there.
   */
  lemma ScriptEndsExactly(s: Sys, j: JobId, p: Process, status: int, now: int, disabled: bool, w: World, luck: Oracle)
    requires Inv(s) && LiveJob(s, j) && p in s.jobs[j].procs && p !in s.jobs[j].setup && p != MainProcess
    ensures Terminated(s, j, p, status, now, disabled, w, luck).Ok?
    ensures var r, gone := Terminated(s, j, p, status, now, disabled, w, luck).value, Gone(s.jobs[j], p);
            if Vital(p) && status != 0
            then Moves(s, r, j, Blamed(gone, true, Some(p), status).(goal := Stop), Dragged(gone, true), w, luck)
            else Moves(s, r, j, gone, [], w, luck)
  {
    hide Inv, Moves, Terminated, Good;
    TerminatedKeeps(s, j, p, status, now, disabled, w, luck);
    GoodOk(s, Terminated(s, j, p, status, now, disabled, w, luck), j);
    ReadyAtRest(s, j);
    GoneReaped(s.jobs[j], p);
    assert Dragged(s.jobs[j], false) + [] == []
      && [] + Dragged(Gone(s.jobs[j], p), true) == Dragged(Gone(s.jobs[j], p), true);
  }

  // ---- The main process ----

  /** A status that is not among the normal ones of the class. */
  predicate BadExit(config: Config, status: int) {
    && status !in config.normalExit
    && (status != 0 || config.normalExit != [] || (config.respawn && !config.task))
  }

  /** The job has been told to run and nothing else is being done about its main process. */
  predicate Unexpected(job: Job) { job.goal.Start? && !job.state.Killed? && !job.state.Stopping? }

  /** The job is stopped for good, rather than respawned. */
  predicate GivesUp(config: Config, job: Job, status: int, now: int, disabled: bool) {
    !BadExit(config, status) || !config.respawn || disabled || Runaway(config.limit, job.window, now)
  }

  /** A script that is still running, or the stopping event, decides when the job moves. */
  predicate Attended(job: Job) { job.state.PostStart? || job.state.PreStop? || job.state.Stopping? }

  /** The job goes on as it is, unless something else decides when. */
  ghost predicate Proceeds(s: Sys, r: Sys, j: JobId, job: Job, es: seq<EventId>, w: World, luck: Oracle) {
    if Attended(job) then Exact(s, r, j, job, es) else Moves(s, r, j, job, es, w, luck)
  }

  /** The job with the respawn counted. */
  function Counted(config: Config, job: Job, now: int): Job { job.(window := Next(config.limit, job.window, now)) }

  /** The end of the main process of a job that is to run: it is stopped, blamed or not, or replaced. */
  ghost predicate MainFalls(s: Sys, r: Sys, j: JobId, status: int, now: int, disabled: bool, w: World, luck: Oracle)
    requires LiveJob(s, j) && LiveClass(s, s.jobs[j].cls)
  {
    var config, gone := s.classes[s.jobs[j].cls].config, Gone(s.jobs[j], MainProcess);
    var counted := Counted(config, gone, now);
    if !BadExit(config, status) then Proceeds(s, r, j, gone.(goal := Stop), [], w, luck)
    else if !config.respawn || disabled then
      Proceeds(s, r, j, Blamed(gone, true, Some(MainProcess), status).(goal := Stop), Dragged(gone, true), w, luck)
    else if Runaway(config.limit, gone.window, now) then
      Proceeds(s, r, j, Blamed(counted, true, None, 0).(goal := Stop), Dragged(counted, true), w, luck)
    else if gone.state.Spawned? then HeldUp(s, r, j, Counted(config, s.jobs[j], now), gone.procs, gone.setup, w)
    else if Attended(gone) then Exact(s, r, j, counted.(goal := Respawning), [])
    else Moves(s, r, j, counted, [], w, luck)
  }

  /** What is decided on the death of a main process. */
  function Decided(config: Config, job: Job, status: int, now: int, disabled: bool): Verdict {
    var bad, idle := BadExit(config, status), !Attended(job);
    if !Unexpected(job) then Verdict(job, false, false, idle, false, false)
    else if !bad || !config.respawn || disabled then Verdict(job, bad, true, idle, false, false)
    else if Runaway(config.limit, job.window, now) then
      Verdict(Counted(config, job, now), false, true, idle, true, false)
    else Verdict(Counted(config, job, now), false, false, idle && !job.state.Spawned?, false, true)
  }

  lemma DeathDecided(config: Config, job: Job, status: int, now: int, disabled: bool)
    requires JobOk(config, job) && MainProcess in job.procs
    ensures Death(config, job, MainProcess, status, now, disabled) == Ok(Decided(config, job, status, now, disabled))
  {
  }

  lemma ProceedsFrom(s: Sys, r: Sys, j: JobId, gone: Job, v: Verdict, status: int, es: seq<EventId>, w: World,
    luck: Oracle)
    requires Concludes(s, r, j, gone, v, MainProcess, status, es, w, luck) && (v.advance <==> !Attended(gone))
    ensures Proceeds(s, r, j, Judged(gone, v, MainProcess, status), es + Dragged(gone, v.failed), w, luck)
  {
    hide Exact, MovedOn, Marks;
  }

  lemma Nought(es: seq<EventId>)
    ensures es + [] == es && [] + es == es
  {
  }

  /**
   job_process_terminated, for the main process: a job that is stopping or that nothing is
   expected of goes on; any other is stopped, blamed for a bad exit, or replaced.
   */
  lemma MainEndsExactly(s: Sys, j: JobId, status: int, now: int, disabled: bool, w: World, luck: Oracle)
    requires Inv(s) && LiveJob(s, j) && MainProcess in s.jobs[j].procs && MainProcess !in s.jobs[j].setup
    ensures LiveClass(s, s.jobs[j].cls) && Terminated(s, j, MainProcess, status, now, disabled, w, luck).Ok?
    ensures var r := Terminated(s, j, MainProcess, status, now, disabled, w, luck).value;
            if Unexpected(s.jobs[j]) then MainFalls(s, r, j, status, now, disabled, w, luck)
            else Proceeds(s, r, j, Gone(s.jobs[j], MainProcess), [], w, luck)
  {
    hide Inv, Moves, Exact, Terminated, Good, HeldUp, Proceeds, Concludes, Death;
    TerminatedKeeps(s, j, MainProcess, status, now, disabled, w, luck);
    GoodOk(s, Terminated(s, j, MainProcess, status, now, disabled, w, luck), j);
    ReadyAtRest(s, j);
    var config, job := s.classes[s.jobs[j].cls].config, s.jobs[j];
    DeathDecided(config, job, status, now, disabled);
    DecidedEnds(s, Terminated(s, j, MainProcess, status, now, disabled, w, luck).value, j, status, now, disabled, w,
      luck);
  }

  lemma DecidedEnds(s: Sys, r: Sys, j: JobId, status: int, now: int, disabled: bool, w: World, luck: Oracle)
    requires LiveJob(s, j) && LiveClass(s, s.jobs[j].cls) && JobOk(s.classes[s.jobs[j].cls].config, s.jobs[j])
    requires MainProcess in s.jobs[j].procs && MainProcess !in s.jobs[j].setup
    requires var v := Decided(s.classes[s.jobs[j].cls].config, s.jobs[j], status, now, disabled);
             DiesAs(s, r, j, MainProcess, status, v, w, luck)
    ensures if Unexpected(s.jobs[j]) then MainFalls(s, r, j, status, now, disabled, w, luck)
            else Proceeds(s, r, j, Gone(s.jobs[j], MainProcess), [], w, luck)
  {
    hide Moves, Exact, HeldUp, Proceeds, Concludes, Next, Runaway;
    var job := s.jobs[j];
    var v := Decided(s.classes[job.cls].config, job, status, now, disabled);
    GoneReaped(job, MainProcess);
    if v.respawning && job.state.Spawned? {
      assert job.setup - {MainProcess} == job.setup;
    } else {
      var gone, es := Reaped(Foreseen(v), MainProcess), Dragged(v.job, v.runaway);
      GoneReaped(Foreseen(v), MainProcess);
      Nought(Dragged(gone, v.failed));
      Nought(es);
      if v.respawning && Attended(job) {
        RespawnsLater(s, r, j, gone, v, status, es, w, luck);
      } else if v.respawning {
        RespawnsNow(s, r, j, gone, v, status, es, w, luck);
      } else {
        ProceedsFrom(s, r, j, gone, v, status, es, w, luck);
      }
    }
  }

  lemma RespawnsLater(s: Sys, r: Sys, j: JobId, gone: Job, v: Verdict, status: int, es: seq<EventId>, w: World,
                      luck: Oracle)
    requires Concludes(s, r, j, gone, v, MainProcess, status, es, w, luck) && !v.advance && !v.stop && !v.failed
    ensures Exact(s, r, j, gone, es)
  {
    hide Exact;
    Nought(es);
  }

  lemma RespawnsNow(s: Sys, r: Sys, j: JobId, gone: Job, v: Verdict, status: int, es: seq<EventId>, w: World,
    luck: Oracle)
    requires Concludes(s, r, j, gone, v, MainProcess, status, es, w, luck) && v.advance && !v.stop && !v.failed
    ensures Moves(s, r, j, gone, es, w, luck)
  {
    hide Moves;
    Nought(es);
  }

  lemma StoppedThere(s: Sys, r: Sys, j: JobId, job: Job, es: seq<EventId>, w: World, luck: Oracle)
    requires Proceeds(s, r, j, job, es, w, luck) && MainProcess !in job.procs && !job.goal.Respawning?
    requires job.state.Running?
             || (job.goal.Stop? && (job.state.Spawned? || job.state.PostStart? || job.state.PreStop?))
    ensures LiveJob(r, j) && r.jobs[j].failed == job.failed && r.jobs[j].goal == job.goal
    ensures r.jobs[j].failedProcess == job.failedProcess && r.jobs[j].exitStatus == job.exitStatus
    ensures job.state.Running? || job.state.Spawned? ==> r.jobs[j].state.Stopping?
  {
    hide Marks, FirstKept, WayUp;
  }

  /**
   A job whose main process dies unexpectedly is blamed exactly when the exit is bad and it gives
   up, and its goal becomes stop exactly when it gives up.
   */
  lemma BlamedExactly(s: Sys, j: JobId, status: int, now: int, disabled: bool, w: World, luck: Oracle)
    requires Inv(s) && LiveJob(s, j) && MainProcess in s.jobs[j].procs && MainProcess !in s.jobs[j].setup
    requires Unexpected(s.jobs[j])
    ensures LiveClass(s, s.jobs[j].cls) && Terminated(s, j, MainProcess, status, now, disabled, w, luck).Ok?
    ensures var r, config := Terminated(s, j, MainProcess, status, now, disabled, w, luck).value,
                             s.classes[s.jobs[j].cls].config;
            var job, givesUp := s.jobs[j], GivesUp(config, s.jobs[j], status, now, disabled);
            && LiveJob(r, j)
            && (r.jobs[j].goal.Stop? <==> givesUp)
            && (r.jobs[j].failed <==> job.failed || (BadExit(config, status) && givesUp))
            && (!job.failed && BadExit(config, status) && (!config.respawn || disabled) ==>
                  r.jobs[j].failedProcess == Some(MainProcess) && r.jobs[j].exitStatus == status)
            && (job.state.Running? || job.state.Spawned? ==> r.jobs[j].state.Stopping?)
  {
    hide Inv, Terminated, Proceeds, Moves, Next, Runaway, Marks;
    MainEndsExactly(s, j, status, now, disabled, w, luck);
    ReadyAtRest(s, j);
    var r, config, job := Terminated(s, j, MainProcess, status, now, disabled, w, luck).value,
                          s.classes[s.jobs[j].cls].config, s.jobs[j];
    UnexpectedWhere(config, job);
    var gone, bad := Gone(job, MainProcess), BadExit(config, status);
    var counted := Counted(config, gone, now);
    if !bad {
      StoppedThere(s, r, j, gone.(goal := Stop), [], w, luck);
    } else if !config.respawn || disabled {
      StoppedThere(s, r, j, Blamed(gone, true, Some(MainProcess), status).(goal := Stop), Dragged(gone, true), w, luck);
    } else if Runaway(config.limit, job.window, now) {
      StoppedThere(s, r, j, Blamed(counted, true, None, 0).(goal := Stop), Dragged(counted, true), w, luck);
    } else if job.state.Running? {
      assert Proceeds(s, r, j, counted, [], w, luck) by { RunningProceeds(s, r, j, counted, w, luck); }
      StoppedThere(s, r, j, counted, [], w, luck);
    }
  }

  lemma RunningProceeds(s: Sys, r: Sys, j: JobId, job: Job, w: World, luck: Oracle)
    requires job.state.Running? && Moves(s, r, j, job, [], w, luck)
    ensures Proceeds(s, r, j, job, [], w, luck)
  {
    hide Moves;
  }

  lemma UnexpectedWhere(config: Config, job: Job)
    requires JobOk(config, job) && MainProcess in job.procs && Unexpected(job)
    ensures job.state.Running? || job.state.Spawned? || job.state.PostStart? || job.state.PreStop?
  {
  }
}

/** What a command does to its job: exactly this. */
module CommandOutcomes {
  import opened Wrappers
  import opened Environ
  import opened Condition
  import opened ConditionEnviron
  import opened JobMachine
  import opened Respawn
  import opened Supervisor
  import opened SupervisorSteps
  import opened Invariant
  import opened Transitions
  import opened Arrival
  import opened ProcessSteps
  import opened CommandSteps
  import Expansion

  // ---- Where an instance has its variables from ----

  /** The last layer that mentions the key decides, and in it the last mention. */
  function Layered(layers: seq<Env>, key: string, outer: map<string, string>): Option<string> {
    if layers == [] then None
    else
      var last := LastMention(layers[|layers| - 1], key);
      if last.Some? then Meant(last.value, outer) else Layered(layers[..|layers| - 1], key, outer)
  }

  /** The table gives these variables their values, all others that of the layers, and has no key twice. */
  ghost predicate Supplies(table: Env, layers: seq<Env>, fixed: map<string, string>, outer: map<string, string>) {
    && WellFormed(table)
    && forall k :: PlainKey(k) ==> Get(table, k) == if k in fixed then Some(fixed[k]) else Layered(layers, k, outer)
  }

  lemma LayeredOnTop(layers: seq<Env>, top: Env, key: string, outer: map<string, string>)
    ensures Layered(layers + [top], key, outer) ==
            if LastMention(top, key).Some? then Meant(LastMention(top, key).value, outer)
            else Layered(layers, key, outer)
  {
    assert (layers + [top])[..|layers|] == layers;
  }

  /** The layers below the command or the event: init's own table and the class. */
  function Below(config: Config, w: World): seq<Env> { [w.jobEnviron] + [config.env] }

  lemma ClassSupplies(config: Config, w: World)
    ensures Supplies(ClassEnvironment(config, w), Below(config, w), map[], w.outer)
  {
    hide Appended, LastMention, Get, Meant, KeyLength;
    var base := Appended([], w.jobEnviron, true, w.outer);
    AppendedLastWriterWins([], w.jobEnviron, w.outer, "");
    AppendedLastWriterWins(base, config.env, w.outer, "");
    forall k: string | PlainKey(k)
      ensures Get(ClassEnvironment(config, w), k) == Layered(Below(config, w), k, w.outer)
    {
      AppendedLastWriterWins([], w.jobEnviron, w.outer, k);
      AppendedLastWriterWins(base, config.env, w.outer, k);
      LayeredOnTop([], w.jobEnviron, k, w.outer);
      LayeredOnTop([w.jobEnviron], config.env, k, w.outer);
      assert [] + [w.jobEnviron] == [w.jobEnviron];
      assert Get([], k).None? by { NothingThere(k); }
    }
  }

  lemma NothingSupplies(outer: map<string, string>)
    ensures Supplies([], [], map[], outer)
  {
    forall k: string | PlainKey(k) ensures Get([], k) == Layered([], k, outer) { NothingThere(k); }
  }

  lemma NothingThere(key: string)
    ensures Get([], key).None?
  {
  }

  /** The command's variables come on top. */
  lemma CommandSupplies(config: Config, w: World, env: Env)
    ensures Supplies(Appended(ClassEnvironment(config, w), env, true, w.outer), Below(config, w) + [env], map[],
            w.outer)
  {
    hide Appended, LastMention, Get, Meant, ClassEnvironment, KeyLength, Layered;
    ClassSupplies(config, w);
    AppendedLastWriterWins(ClassEnvironment(config, w), env, w.outer, "");
    forall k: string | PlainKey(k)
      ensures Get(Appended(ClassEnvironment(config, w), env, true, w.outer), k) ==
              Layered(Below(config, w) + [env], k, w.outer)
    {
      AppendedLastWriterWins(ClassEnvironment(config, w), env, w.outer, k);
      LayeredOnTop(Below(config, w), env, k, w.outer);
    }
  }

  /** The variables of the gathered events come on top, in the condition's order, and one variable names the events. */
  lemma EventsSupply(env: Env, layers: seq<Env>, t: Cond, occ: Lookup, key: string, outer: map<string, string>)
    requires Sound(t) && PlainKey(key) && Supplies(env, layers, map[], outer)
    ensures Supplies(Collected(env, t, occ, key, outer), layers + [Variables(Gathered(t), occ)],
                     map[key := EventNames(Gathered(t), occ)], outer)
  {
    hide Collected, LastMention, Get, Meant, KeyLength, Layered, Variables, EventNames, Gathered, Sound, PlainKey;
    var told := Variables(Gathered(t), occ);
    CollectedMeaning(env, t, occ, key, outer, key);
    forall k: string | PlainKey(k)
      ensures Get(Collected(env, t, occ, key, outer), k) ==
              if k in map[key := EventNames(Gathered(t), occ)] then Some(EventNames(Gathered(t), occ))
              else Layered(layers + [told], k, outer)
    {
      CollectedMeaning(env, t, occ, key, outer, k);
      LayeredOnTop(layers, told, k, outer);
    }
  }

  // ---- A job leaves waiting or running ----

  /** A waiting job that has been told to start, waiting for the event of that number. */
  function Begun(job: Job, e: EventId): Job {
    job.(goal := Start, state := Starting, blocker := Some(e),
         env := if job.startEnv.Some? then job.startEnv.value else job.env, startEnv := None, stopEnv := None,
         failed := false, failedProcess := None, exitStatus := 0)
  }

  /** A stop of the job goes through its pre-stop script: it has one, and a main process that is alive. */
  predicate AsksFirst(config: Config, job: Job) {
    MainProcess in job.procs && PreStopProcess in config.processes
  }

  /** A running job that has been told to stop. */
  function Halted(config: Config, job: Job, e: EventId): Job {
    if AsksFirst(config, job)
    then job.(goal := Stop, state := PreStop, procs := job.procs + {PreStopProcess},
      setup := job.setup + {PreStopProcess})
    else job.(goal := Stop, state := Stopping, blocker := Some(e))
  }

  /** The job is this record, and one event of that name is new, for which it waits. */
  ghost predicate WaitsAs(s: Sys, r: Sys, j: JobId, job: Job, name: string) {
    && LiveJob(r, j) && r.jobs[j] == job && Marks(s, r, [])
    && |r.events| == |s.events| + 1 && r.events[|s.events|].what.name == name && r.events[|s.events|].blocking == [j]
  }

  lemma BeginExactly(s: Sys, r: Sys, j: JobId, job: Job, w: World, luck: Oracle)
    requires job.cls < |s.classes| && MovedOn(s, job, r, j, w, luck) && Marks(s, r, [])
    requires job.state.Waiting? && job.goal.Start?
    ensures WaitsAs(s, r, j, Begun(job, |s.events|), "starting")
  {
    assert job.procs + {} == job.procs && job.setup + {} == job.setup;
  }

  lemma HaltExactly(s: Sys, r: Sys, j: JobId, job: Job, w: World, luck: Oracle)
    requires job.cls < |s.classes| && MovedOn(s, job, r, j, w, luck) && Marks(s, r, [])
    requires job.state.Running? && job.goal.Stop? && job.blocker.None?
    ensures var config := s.classes[job.cls].config;
            && (AsksFirst(config, job) ==>
                  LiveJob(r, j) && r.jobs[j] == Halted(config, job, |s.events|) && |r.events| == |s.events|)
            && (!AsksFirst(config, job) ==> WaitsAs(s, r, j, Halted(config, job, |s.events|), "stopping"))
  {
    assert job.procs + {} == job.procs && job.setup + {} == job.setup;
  }

  /** A running job has been told to stop, and no event is newly marked as failed. */
  ghost predicate Stops(s: Sys, r: Sys, j: JobId, job: Job) {
    && job.cls < |s.classes|
    && var config := s.classes[job.cls].config;
       if AsksFirst(config, job)
       then LiveJob(r, j) && r.jobs[j] == Halted(config, job, |s.events|) && |r.events| == |s.events| && Marks(s, r, [])
       else WaitsAs(s, r, j, Halted(config, job, |s.events|), "stopping")
  }

  /** job_change_goal in the job's own terms: only a waiting job begins and only a running job halts. */
  lemma GoalOutcome(s: Sys, j: JobId, goal: Goal, w: World, luck: Oracle)
    requires Inv(s) && LiveJob(s, j) && !goal.Respawning?
    ensures ChangeGoal(s, j, goal, w, luck).Ok?
    ensures var r, job := ChangeGoal(s, j, goal, w, luck).value, s.jobs[j].(goal := goal);
            if goal.Start? && job.state.Waiting? then WaitsAs(s, r, j, Begun(job, |s.events|), "starting")
            else if goal.Stop? && job.state.Running? then Stops(s, r, j, job)
            else LiveJob(r, j) && r.jobs[j] == job && |r.events| == |s.events| && Marks(s, r, [])
  {
    hide Inv, ChangeGoal, MovedOn, Begun, Halted, WaitsAs, Marks;
    GoalExactly(s, j, goal, w, luck);
    ReadyAtRest(s, j);
    RestGoals(s.classes[s.jobs[j].cls].config, s.jobs[j]);
    NothingHolds(s.classes[s.jobs[j].cls].config, s.jobs[j]);
    var r, job := ChangeGoal(s, j, goal, w, luck).value, s.jobs[j].(goal := goal);
    if goal.Start? && job.state.Waiting? {
      BeginExactly(s, r, j, job, w, luck);
    } else if goal.Stop? && job.state.Running? {
      HaltExactly(s, r, j, job, w, luck);
    }
  }

  lemma NothingHolds(config: Config, job: Job)
    requires JobOk(config, job)
    ensures job.state.Waiting? || job.state.Running? ==> job.blocker.None?
  {
  }

  // ---- start, stop, restart ----

  /** Only the number of events, their failures and the classes matter of where one starts from. */
  lemma OutcomeFrom(s: Sys, s1: Sys, r: Sys, j: JobId, job: Job, name: string)
    requires Marks(s, s1, []) && |s1.events| == |s.events| && s1.classes == s.classes
    ensures WaitsAs(s1, r, j, job, name) ==> WaitsAs(s, r, j, job, name)
    ensures Stops(s1, r, j, job) ==> Stops(s, r, j, job) && Marks(s, r, [])
    ensures Marks(s1, r, []) ==> Marks(s, r, [])
  {
    hide Begun, Halted;
  }

  /**
   job_start: a job that is to start already is left alone; any other is to start with the
   environment and blocks nothing any more, and begins if it was waiting.
   */
  lemma StartExactly(s: Sys, j: JobId, startEnv: Option<Env>, w: World, luck: Oracle)
    requires Inv(s) && LiveJob(s, j)
    ensures StartInstance(s, j, startEnv, w, luck).Ok?
    ensures var r, job := StartInstance(s, j, startEnv, w, luck).value, s.jobs[j];
            var told := job.(goal := Start, startEnv := startEnv, blocking := []);
            if job.goal.Start? then r == s
            else if job.state.Waiting? then WaitsAs(s, r, j, Begun(told, |s.events|), "starting")
            else LiveJob(r, j) && r.jobs[j] == told && |r.events| == |s.events| && Marks(s, r, [])
  {
    hide Inv, ChangeGoal, JobFinished, WaitsAs, Marks, Touches;
    if !s.jobs[j].goal.Start? {
      var job := s.jobs[j].(startEnv := startEnv);
      FinishQuietly(s, j, job);
      var s1 := JobFinished(SetJob(s, j, job), j, false).value;
      GoalOutcome(s1, j, Start, w, luck);
      var told := job.(goal := Start, blocking := []);
      OutcomeFrom(s, s1, ChangeGoal(s1, j, Start, w, luck).value, j, Begun(told, |s.events|), "starting");
    }
  }

  /**
   job_stop: a job that is to stop already is left alone; any other is to stop and blocks
   nothing any more; one that is running goes to its pre-stop script or to stopping.
   */
  lemma StopExactly(s: Sys, j: JobId, w: World, luck: Oracle)
    requires Inv(s) && LiveJob(s, j)
    ensures StopInstance(s, j, w, luck).Ok?
    ensures var r, job := StopInstance(s, j, w, luck).value, s.jobs[j];
            var told := job.(goal := Stop, stopEnv := None, blocking := []);
            if job.goal.Stop? then r == s
            else if job.state.Running? then Stops(s, r, j, told)
            else LiveJob(r, j) && r.jobs[j] == told && |r.events| == |s.events| && Marks(s, r, [])
  {
    hide Inv, ChangeGoal, JobFinished, WaitsAs, Marks, Touches, Stops;
    if !s.jobs[j].goal.Stop? {
      var job := s.jobs[j].(stopEnv := None);
      FinishQuietly(s, j, job);
      var s1 := JobFinished(SetJob(s, j, job), j, false).value;
      GoalOutcome(s1, j, Stop, w, luck);
      OutcomeFrom(s, s1, ChangeGoal(s1, j, Stop, w, luck).value, j, job.(goal := Stop, blocking := []), "");
      ReadyAtRest(s, j);
      RestGoals(s.classes[s.jobs[j].cls].config, s.jobs[j]);
    }
  }

  /** The job has been stopped as the record, and been told to start since. */
  ghost predicate StopsAndStarts(s: Sys, r: Sys, j: JobId, job: Job)
    requires LiveJob(r, j)
  {
    Stops(s, SetJob(r, j, r.jobs[j].(goal := Stop)), j, job)
  }

  /**
   job_restart: a job that is to stop is left alone; any other forgets its environments and what
   it blocks and is to start; one that is running is on its way out.
   */
  lemma RestartExactly(s: Sys, j: JobId, w: World, luck: Oracle)
    requires Inv(s) && LiveJob(s, j)
    ensures RestartInstance(s, j, w, luck).Ok?
    ensures var r, job := RestartInstance(s, j, w, luck).value, s.jobs[j];
            var told := job.(startEnv := None, stopEnv := None, blocking := []);
            if job.goal.Stop? then r == s
            else
              && LiveJob(r, j) && r.jobs[j].goal.Start? && Marks(s, r, [])
              && (if job.state.Running? then StopsAndStarts(s, r, j, told.(goal := Stop))
                  else r.jobs[j] == told.(goal := Start) && |r.events| == |s.events|)
  {
    hide Inv, ChangeGoal, JobFinished, WaitsAs, Marks, Touches, Stops;
    if !s.jobs[j].goal.Stop? {
      var job := s.jobs[j].(startEnv := None, stopEnv := None);
      FinishQuietly(s, j, job);
      var s1 := JobFinished(SetJob(s, j, job), j, false).value;
      GoalKeeps(s1, j, Stop, w, luck);
      GoalOutcome(s1, j, Stop, w, luck);
      var s2 := ChangeGoal(s1, j, Stop, w, luck).value;
      OutcomeFrom(s, s1, s2, j, job.(goal := Stop, blocking := []), "");
      ReadyAtRest(s, j);
      RestGoals(s.classes[s.jobs[j].cls].config, s.jobs[j]);
      StartsPlainly(s2, j, w, luck);
      var r := SetJob(s2, j, s2.jobs[j].(goal := Start));
      SecondGoal(s, s2, r, j, job.(goal := Stop, blocking := []));
    }
  }

  lemma StartsPlainly(s: Sys, j: JobId, w: World, luck: Oracle)
    requires LiveJob(s, j) && !s.jobs[j].state.Waiting?
    ensures ChangeGoal(s, j, Start, w, luck) == Ok(SetJob(s, j, s.jobs[j].(goal := Start)))
  {
    assert s.jobs[j].goal.Start? ==> SetJob(s, j, s.jobs[j].(goal := Start)) == s;
  }

  lemma SecondGoal(s: Sys, s2: Sys, r: Sys, j: JobId, job: Job)
    requires LiveJob(s2, j) && r == SetJob(s2, j, s2.jobs[j].(goal := Start)) && s2.jobs[j].goal.Stop?
    ensures Stops(s, s2, j, job) ==> StopsAndStarts(s, r, j, job)
    ensures Marks(s, s2, []) ==> Marks(s, r, [])
  {
    hide Halted, Marks;
    assert SetJob(r, j, r.jobs[j].(goal := Stop)) == s2;
    if Marks(s, s2, []) { MarksSame(s, s2, r, []); }
  }

  // ---- Instances ----

  /** A new instance that has been started with the environment, and has failed nobody and knows nothing yet. */
  function Newborn(c: ClassId, name: string, config: Config, env: Env, e: EventId): Job {
    Job(true, c, name, Start, Starting, env, None, None,
        if config.stopOn.Some? then Some(Fresh(config.stopOn.value)) else None,
        {}, {}, Some(e), [], false, false, None, 0, Window(0, 0))
  }

  /** Only the instance, and the list of instances if it is new, are concerned. */
  ghost predicate Alone(s: Sys, r: Sys, c: ClassId, j: JobId) {
    && |s.jobs| <= |r.jobs| <= |s.jobs| + 1 && (forall k :: 0 <= k < |s.jobs| && k != j ==> r.jobs[k] == s.jobs[k])
    && c < |s.classes| == |r.classes|
    && r.classes == s.classes[c := s.classes[c].(instances := r.classes[c].instances)]
    && r.classes[c].instances == (if j < |s.jobs| then s.classes[c].instances else s.classes[c].instances + [|s.jobs|])
  }

  /**
   The instance with the name runs or is to start, with the table as its environment if it
   was not to start before.
   */
  ghost predicate StartedAs(s: Sys, r: Sys, c: ClassId, j: JobId, name: string, table: Env)
    requires c < |s.classes|
  {
    Alone(s, r, c, j)
    && if NoneNamed(s, c, name) then
         j == |s.jobs| && WaitsAs(s, r, j, Newborn(c, name, s.classes[c].config, table, |s.events|), "starting")
       else
         && j in s.classes[c].instances && j < |s.jobs| && s.jobs[j].name == name
         && if s.jobs[j].goal.Start? then r == s
            else
              && LiveJob(r, j) && r.jobs[j] == s.jobs[j].(goal := Start, startEnv := Some(table), blocking := [])
              && |r.events| == |s.events| && Marks(s, r, [])
  }

  /** What a command to a class makes of its variables: the table, the name, the instance. */
  ghost predicate ClassStarts(s: Sys, r: Sys, c: ClassId, table: Env, layers: seq<Env>, w: World)
    requires c < |s.classes|
  {
    var name := Expansion.Expand(s.classes[c].config.instance, table);
    && Supplies(table, layers, map[], w.outer)
    && if name.Err? then r == s else exists j :: StartedAs(s, r, c, j, name.value, table)
  }

  /**
   job_class_start: the instance is named by its class's variables, those of the command and
   init's own, and gets just these as its environment.
   */
  lemma StartFromClassExactly(s: Sys, c: ClassId, env: Env, w: World, luck: Oracle)
    requires Inv(s) && c in s.registered && NoneWaiting(s)
    ensures LiveClass(s, c) && StartFromClass(s, c, env, w, luck).Ok?
    ensures exists table ::
              ClassStarts(s, StartFromClass(s, c, env, w, luck).value, c, table, Below(s.classes[c].config, w) + [env],
                w)
  {
    hide Inv, Supplies, FindOrCreate, StartInstance, WaitsAs, Marks, Touches, Below, ClassEnvironment, Looked, Alone;
    RegisteredLives(s, c);
    var config := s.classes[c].config;
    var table := Appended(ClassEnvironment(config, w), env, true, w.outer);
    CommandSupplies(config, w, env);
    var name := Expansion.Expand(config.instance, table);
    if name.Ok? {
      FindOrCreateKeeps(s, c, name.value);
      var f := FindOrCreate(s, c, name.value).value;
      StartKeeps(f.sys, f.job, Some(table), w, luck);
      StartExactly(f.sys, f.job, Some(table), w, luck);
      StartedFound(s, f, StartInstance(f.sys, f.job, Some(table), w, luck).value, c, name.value, table);
    }
    assert ClassStarts(s, StartFromClass(s, c, env, w, luck).value, c, table, Below(config, w) + [env], w);
  }

  lemma StartedFound(s: Sys, f: Found, r: Sys, c: ClassId, name: string, table: Env)
    requires NoneWaiting(s) && c < |s.classes| && Looked(s, f, c, name) && Touches(f.sys, r, f.job) && LiveJob(r, f.job)
    requires LiveJob(f.sys, f.job)
    requires var told := f.sys.jobs[f.job].(goal := Start, startEnv := Some(table), blocking := []);
             if f.sys.jobs[f.job].goal.Start? then r == f.sys
             else if f.sys.jobs[f.job].state.Waiting? then
               WaitsAs(f.sys, r, f.job, Begun(told, |f.sys.events|), "starting")
             else LiveJob(r, f.job) && r.jobs[f.job] == told && |r.events| == |f.sys.events| && Marks(f.sys, r, [])
    ensures StartedAs(s, r, c, f.job, name, table)
  {
    hide Current, Calm, SameConfigs;
    if NoneNamed(s, c, name) {
      assert r.classes == f.sys.classes;
    } else {
      assert LiveJob(s, f.job);
    }
  }
}

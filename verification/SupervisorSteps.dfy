/**
 The steps of the supervisor: what it does when an event is emitted or polled, a
 process dies or reports, a command arrives or a configuration file changes.
 */
module SupervisorSteps {
  import opened Wrappers
  import opened Environ
  import opened Condition
  import opened ConditionEnviron
  import opened JobMachine
  import opened Supervisor
  import Expansion

  // ---- Processes (init/job_process.c, init/job.c:2596-2643) ----

  function ConfigOf(s: Sys, j: JobId): Config
    requires LiveJob(s, j) && LiveClass(s, s.jobs[j].cls)
  {
    s.classes[s.jobs[j].cls].config
  }

  /** The job and its class are there. */
  predicate Present(s: Sys, j: JobId) { LiveJob(s, j) && LiveClass(s, s.jobs[j].cls) }

  /** The part of job_process_terminated before the pid is cleared. */
  function BeforeReaping(s: Sys, j: JobId, v: Verdict, w: World, luck: Oracle): Result<Sys, Trap> {
    if !LiveJob(s, j) then Err(Trap("job_process_terminated"))
    else
      var s1 := SetJob(s, j, v.job);
      if v.runaway then JobFailed(s1, j, None, 0)
      else if v.respawning && v.job.state.Spawned? then ChangeState(s1, j, Stopping, w, luck)
      else if v.respawning && !v.advance then ChangeGoal(s1, j, Respawning, w, luck)
      else Ok(s1)
  }

  /** The process is gone: no timer, no pid. */
  function Reaped(job: Job, p: Process): Job {
    job.(killTimer := false, procs := job.procs - {p}, setup := job.setup - {p})
  }

  /** The part of job_process_terminated after the pid is cleared. */
  function AfterReaping(s: Sys, j: JobId, p: Process, status: int, v: Verdict, w: World, luck: Oracle): Result<Sys,
    Trap> {
    var s1 :- if v.failed then JobFailed(s, j, Some(p), status) else Ok(s);
    var s2 :- if v.stop then ChangeGoal(s1, j, Stop, w, luck) else Ok(s1);
    if !LiveJob(s2, j) then Err(Trap("job_process_terminated: freed"))
    else if v.stop && s2.jobs[j].state.Running? then Ok(s2)
    else if v.advance then AdvanceJob(s2, j, w, luck)
    else Ok(s2)
  }

  /** job_process_terminated */
  function Terminated(s: Sys, j: JobId, p: Process, status: int, now: int, disabled: bool, w: World,
    luck: Oracle): Result<Sys, Trap> {
    if !Present(s, j) then Err(Trap("job_process_terminated"))
    else if IsSpawningState(s.jobs[j].state) then Err(Trap("job_process_terminated: still spawning"))
    else
      var v :- Death(ConfigOf(s, j), s.jobs[j], p, status, now, disabled);
      var s1 :- BeforeReaping(s, j, v, w, luck);
      if !LiveJob(s1, j) then Err(Trap("job_process_terminated: freed"))
      else AfterReaping(SetJob(s1, j, Reaped(s1.jobs[j], p)), j, p, status, v, w, luck)
  }

  /** job_child_error_handler: a process could not be set up. */
  function ChildError(s: Sys, j: JobId, p: Process, w: World, luck: Oracle): Result<Sys, Trap> {
    if !Present(s, j) then Err(Trap("job_child_error_handler"))
    else
      var s1 := SetJob(s, j, s.jobs[j].(procs := s.jobs[j].procs - {p}, setup := s.jobs[j].setup - {p}));
      if p.PostStartProcess? || p.PreStopProcess? then AdvanceJob(s1, j, w, luck)
      else
        var s2 :- JobFailed(s1, j, Some(p), -1);
        var s3 :- ChangeGoal(s2, j, Stop, w, luck);
        if p.SecurityProcess? then Ok(s3) else AdvanceJob(s3, j, w, luck)
  }

  /** job_process_close_handler: a process has been set up. */
  function ChildReady(s: Sys, j: JobId, p: Process, w: World, luck: Oracle): Result<Sys, Trap> {
    if !Present(s, j) then Err(Trap("job_process_close_handler"))
    else
      var s1 := SetJob(s, j, s.jobs[j].(setup := s.jobs[j].setup - {p}));
      var s2 :- if s.jobs[j].state.Spawned? && ConfigOf(s, j).expectsNothing && p.MainProcess?
        then AdvanceJob(s1, j, w, luck) else Ok(s1);
      if !LiveJob(s2, j) || IsSpawningState(s2.jobs[j].state)
        then Err(Trap("job_process_close_handler: still spawning"))
      else Ok(s2)
  }

  /** job_process_kill_timer */
  function KillTimer(s: Sys, j: JobId): Result<Sys, Trap> {
    if !LiveJob(s, j) || MainProcess !in s.jobs[j].procs then Err(Trap("job_process_kill_timer"))
    else Ok(SetJob(s, j, s.jobs[j].(killTimer := false)))
  }

  // ---- Commands (init/job.c:1353-1545, init/job_class.c:1021-1112) ----

  function StartInstance(s: Sys, j: JobId, startEnv: Option<Env>, w: World, luck: Oracle): Result<Sys, Trap> {
    if !LiveJob(s, j) then Err(Trap("job_start"))
    else if s.jobs[j].goal.Start? then Ok(s)
    else
      var s1 :- JobFinished(SetJob(s, j, s.jobs[j].(startEnv := startEnv)), j, false);
      ChangeGoal(s1, j, Start, w, luck)
  }

  function StopInstance(s: Sys, j: JobId, w: World, luck: Oracle): Result<Sys, Trap> {
    if !LiveJob(s, j) then Err(Trap("job_stop"))
    else if s.jobs[j].goal.Stop? then Ok(s)
    else
      var s1 :- JobFinished(SetJob(s, j, s.jobs[j].(stopEnv := None)), j, false);
      ChangeGoal(s1, j, Stop, w, luck)
  }

  function RestartInstance(s: Sys, j: JobId, w: World, luck: Oracle): Result<Sys, Trap> {
    if !LiveJob(s, j) then Err(Trap("job_restart"))
    else if s.jobs[j].goal.Stop? then Ok(s)
    else
      var s1 :- JobFinished(SetJob(s, j, s.jobs[j].(startEnv := None, stopEnv := None)), j, false);
      var s2 :- ChangeGoal(s1, j, Stop, w, luck);
      ChangeGoal(s2, j, Start, w, luck)
  }

  /** The instance of the class with the name, among these jobs. */
  function InstanceNamed(s: Sys, js: seq<JobId>, name: string): Option<JobId> {
    if js == [] then None
    else if js[0] < |s.jobs| && s.jobs[js[0]].name == name then Some(js[0])
    else InstanceNamed(s, js[1..], name)
  }

  datatype Found = Found(sys: Sys, job: JobId)

  /** nih_hash_lookup of the instance, and job_new if there is none */
  function FindOrCreate(s: Sys, c: ClassId, name: string): Result<Found, Trap> {
    if !LiveClass(s, c) then Err(Trap("job_new"))
    else
      var old_ := InstanceNamed(s, s.classes[c].instances, name);
      if old_.Some? then Ok(Found(s, old_.value))
      else
        var j := |s.jobs|;
        var s1 := s.(jobs := s.jobs + [NewJob(c, name, s.classes[c].config)]);
        Ok(Found(SetClass(s1, c, s1.classes[c].(instances := s1.classes[c].instances + [j])), j))
  }

  /** job_class_environment */
  function ClassEnvironment(config: Config, w: World): Env {
    Appended(Appended([], w.jobEnviron, true, w.outer), config.env, true, w.outer)
  }

  /** job_class_start */
  function StartFromClass(s: Sys, c: ClassId, env: Env, w: World, luck: Oracle): Result<Sys, Trap> {
    if !LiveClass(s, c) then Err(Trap("job_class_start"))
    else
      var config := s.classes[c].config;
      var startEnv := Appended(ClassEnvironment(config, w), env, true, w.outer);
      var name := Expansion.Expand(config.instance, startEnv);
      if name.Err? then Ok(s)
      else
        var f :- FindOrCreate(s, c, name.value);
        StartInstance(f.sys, f.job, Some(startEnv), w, luck)
  }

  // ---- Events offered to conditions (init/event.c:320-430, init/job_class.c:2600-2675) ----

  function Described(events: seq<Event>): Lookup { (e: EventId) => if e < |events| then events[e].what
    else Occurrence("", []) }

  /** event_operator_match against one event */
  function HitBy(w: World, what: Occurrence, env: Env): Hit { (name, args) => w.matches(name, args, what, env) }

  /** event_operator_events: the job blocks the events that satisfied the condition. */
  function BlockGathered(s: Sys, j: JobId, t: Cond): Result<Sys, Trap> {
    if !LiveJob(s, j) || !Sound(t) then Err(Trap("event_operator_events"))
    else
      var s1 := SetJob(s, j, s.jobs[j].(blocking := s.jobs[j].blocking + Gathered(t)));
      BlockAll(s1, Gathered(t))
  }

  /** event_operator_reset of a job's stop condition */
  function ResetStop(s: Sys, j: JobId): Result<Sys, Trap> {
    if !LiveJob(s, j) || s.jobs[j].stopOn.None? then Err(Trap("event_operator_reset"))
    else
      var t := s.jobs[j].stopOn.value;
      UnblockAll(SetJob(s, j, s.jobs[j].(stopOn := Some(Reset(t)))), Held(t))
  }

  /** event_operator_reset of a class's start condition, if it has one */
  function ResetStart(s: Sys, c: ClassId): Result<Sys, Trap> {
    if !LiveClass(s, c) then Err(Trap("event_operator_reset"))
    else if s.classes[c].startOn.None? then Ok(s)
    else
      var t := s.classes[c].startOn.value;
      UnblockAll(SetClass(s, c, s.classes[c].(startOn := Some(Reset(t)))), Held(t))
  }

  /** The stop condition has become true. */
  function StopByCondition(s: Sys, j: JobId, t: Cond, w: World, luck: Oracle): Result<Sys, Trap> {
    if !LiveJob(s, j) || !Sound(t) then Err(Trap("event_pending_handle_jobs"))
    else
      var stopping := !s.jobs[j].goal.Stop?;
      var stopEnv := Some(Collected([], t, Described(s.events), "UPSTART_STOP_EVENTS", w.outer));
      var s1 :- if stopping then JobFinished(SetJob(s, j, s.jobs[j].(stopEnv := stopEnv)), j, false) else Ok(s);
      var s2 :- if s1.jobs[j].state.Waiting? then Ok(s1) else BlockGathered(s1, j, t);
      var s3 :- if stopping then ChangeGoal(s2, j, Stop, w, luck) else Ok(s2);
      ResetStop(s3, j)
  }

  /** The event offered to the stop condition of one job. */
  function OfferStop(s: Sys, e: EventId, j: JobId, w: World, luck: Oracle): Result<Sys, Trap> {
    if !LiveJob(s, j) || !LiveEvent(s, e) then Err(Trap("event_pending_handle_jobs"))
    else if s.jobs[j].stopOn.None? then Ok(s)
    else
      var job := s.jobs[j];
      var hit := HitBy(w, s.events[e].what, job.env);
      var t := Handle(job.stopOn.value, e, hit);
      var s1 :- Block(SetJob(s, j, job.(stopOn := Some(t))), e, Taken(job.stopOn.value, hit));
      if Taken(job.stopOn.value, hit) > 0 && t.value then StopByCondition(s1, j, t, w, luck) else Ok(s1)
  }

  function OfferStops(s: Sys, e: EventId, js: seq<JobId>, w: World, luck: Oracle): Result<Sys, Trap>
    decreases |js|
  {
    if js == [] then Ok(s)
    else
      var s1 :- OfferStop(s, e, js[0], w, luck);
      OfferStops(s1, e, js[1..], w, luck)
  }

  datatype Inducted = Inducted(sys: Sys, success: bool)

  /** The instance is found and is to run with the environment. */
  function StartByCondition(s: Sys, c: ClassId, j: JobId, t: Cond, env: Env, w: World, luck: Oracle): Result<Sys,
    Trap> {
    if !LiveJob(s, j) || !LiveClass(s, c) then Err(Trap("job_class_induct_job"))
    else
      var starting := !s.jobs[j].goal.Start?;
      var s1 :- if starting then JobFinished(SetJob(s, j, s.jobs[j].(startEnv := Some(env))), j, false) else Ok(s);
      var s2 :- if s.classes[c].config.task || !s1.jobs[j].state.Running? then BlockGathered(s1, j, t) else Ok(s1);
      if starting then ChangeGoal(s2, j, Start, w, luck) else Ok(s2)
  }

  /** job_class_induct_job */
  function Induct(s: Sys, c: ClassId, t: Cond, w: World, luck: Oracle): Result<Inducted, Trap> {
    if !LiveClass(s, c) || !Sound(t) then Err(Trap("job_class_induct_job"))
    else
      var config := s.classes[c].config;
      var env := Collected(ClassEnvironment(config, w), t, Described(s.events), "UPSTART_EVENTS", w.outer);
      var name := Expansion.Expand(config.instance, env);
      if name.Err? then
        var s1 :- ResetStart(s, c);
        Ok(Inducted(s1, false))
      else
        var f :- FindOrCreate(s, c, name.value);
        var s1 :- StartByCondition(f.sys, c, f.job, t, env, w, luck);
        var s2 :- ResetStart(s1, c);
        Ok(Inducted(s2, true))
  }

  /** The event offered to the start condition of a class. */
  function OfferStart(s: Sys, e: EventId, c: ClassId, w: World, luck: Oracle): Result<Inducted, Trap> {
    if !LiveClass(s, c) || !LiveEvent(s, e) then Err(Trap("event_pending_handle_jobs"))
    else if s.classes[c].startOn.None? then Ok(Inducted(s, true))
    else
      var hit := HitBy(w, s.events[e].what, []);
      var t0 := s.classes[c].startOn.value;
      var t := Handle(t0, e, hit);
      var s1 :- Block(SetClass(s, c, s.classes[c].(startOn := Some(t))), e, Taken(t0, hit));
      if Taken(t0, hit) > 0 && t.value then Induct(s1, c, t, w, luck) else Ok(Inducted(s1, true))
  }

  /** event_pending_handle_jobs, for these classes; a failed induction ends it. */
  function OfferAll(s: Sys, e: EventId, cs: seq<ClassId>, w: World, luck: Oracle): Result<Sys, Trap>
    decreases |cs|
  {
    if cs == [] then Ok(s)
    else if !LiveClass(s, cs[0]) then Err(Trap("event_pending_handle_jobs"))
    else
      var s1 :- OfferStops(s, e, s.classes[cs[0]].instances, w, luck);
      var i :- OfferStart(s1, e, cs[0], w, luck);
      if !i.success then Ok(i.sys) else OfferAll(i.sys, e, cs[1..], w, luck)
  }

  /** event_pending */
  function EventPending(s: Sys, e: EventId, w: World, luck: Oracle): Result<Sys, Trap> {
    if !LiveEvent(s, e) || !s.events[e].progress.Pending? then Err(Trap("event_pending"))
    else OfferAll(Noted(SetEvent(s, e, s.events[e].(progress := Handling)), Offered(e)), e, s.registered, w, luck)
  }

  /** The jobs that wait for the event go on, one after the other. */
  function WakeAll(s: Sys, e: EventId, w: World, luck: Oracle, n: nat): Result<Sys, Trap>
    decreases n
  {
    if !LiveEvent(s, e) then Err(Trap("event_finished"))
    else if s.events[e].blocking == [] then Ok(s)
    else if n == 0 then Err(Trap("event_finished: blocking list grows"))
    else
      var j := s.events[e].blocking[0];
      if !LiveJob(s, j) then Err(Trap("event_finished: job freed"))
      else
        var s1 := Noted(SetEvent(s, e, s.events[e].(blocking := s.events[e].blocking[1..])), Woken(e, j));
        var s2 :- AdvanceJob(SetJob(s1, j, s1.jobs[j].(blocker := None)), j, w, luck);
        WakeAll(s2, e, w, luck, n - 1)
  }

  /** The part of the name from its last slash on is /failed (strrchr and strcmp). */
  predicate NamesFailure(name: string) {
    |name| >= 7 && name[|name| - 7..] == "/failed"
  }

  /** event_finished */
  function EventFinished(s: Sys, e: EventId, w: World, luck: Oracle): Result<Sys, Trap> {
    if !LiveEvent(s, e) || !s.events[e].progress.Finished? then Err(Trap("event_finished"))
    else
      var s1 :- WakeAll(s, e, w, luck, |s.events[e].blocking|);
      if !LiveEvent(s1, e) || s1.events[e].blockers > 0 then Err(Trap("event freed while blocked"))
      else
        var what := s1.events[e].what;
        var s2 := if s1.events[e].failed && !NamesFailure(what.name)
                  then Noted(EventNew(s1, Occurrence(what.name + "/failed", what.env), []), Succeeded(e, |s1.events|))
                    else s1;
        Ok(Noted(SetEvent(s2, e, s2.events[e].(live := false)).(queue := Without(s2.queue, e)), Freed(e)))
  }

  datatype Polled = Polled(sys: Sys, done: bool)

  /**
   event_poll, for at most so many turns of its loops: i is the place of the
   iterator in the list, again the flag poll_again.
   */
  function Poll(s: Sys, i: nat, again: bool, turns: nat, w: World, luck: Oracle): Result<Polled, Trap>
    decreases turns
  {
    if turns == 0 then Ok(Polled(s, false))
    else if i >= |s.queue| then
      if again then Poll(s, 0, false, turns - 1, w, luck) else Ok(Polled(s, true))
    else
      var e := s.queue[i];
      if !LiveEvent(s, e) then Err(Trap("event_poll"))
      else
        var pending := s.events[e].progress.Pending?;
        var s1 :- if pending then EventPending(s, e, w, luck) else Ok(s);
        if !LiveEvent(s1, e) then Err(Trap("event_poll"))
        else if !s1.events[e].progress.Finished? && s1.events[e].blockers > 0 then
          Poll(s1, i + 1, again || pending, turns - 1, w, luck)
        else
          var s2 :- EventFinished(SetEvent(s1, e, s1.events[e].(progress := Finished)), e, w, luck);
          Poll(s2, i, true, turns - 1, w, luck)
  }

  // ---- Configuration (init/conf.c:1065-1230, init/conf.c:1262-1300, init/job_class.c:425-572) ----

  function StartMatches(s: Sys, w: World): Matches {
    (e: EventId, name, args) => e < |s.events| && w.matches(name, args, s.events[e].what, [])
  }

  /** job_class_event_block, for these events of the old condition */
  function TransferBlocks(s: Sys, c: ClassId, es: seq<EventId>, w: World): Result<Sys, Trap>
    decreases |es|
  {
    if es == [] then Ok(s)
    else
      var s1 :- TransferBlocks(s, c, es[..|es| - 1], w);
      var e := es[|es| - 1];
      if !LiveClass(s1, c) || s1.classes[c].startOn.None? || !LiveEvent(s1, e) then Err(Trap("job_class_event_block"))
      else
        var t := s1.classes[c].startOn.value;
        var hit := Of(StartMatches(s1, w), e);
        Block(SetClass(s1, c, s1.classes[c].(startOn := Some(Absorb(t, e, hit)))), e, Taken(t, hit))
  }

  /** job_class_event_block */
  function EventBlock(s: Sys, old_: ClassId, new_: ClassId, w: World): Result<Sys, Trap> {
    if !LiveClass(s, old_) || !LiveClass(s, new_) then Err(Trap("job_class_event_block"))
    else if s.classes[old_].startOn.None? || s.classes[new_].startOn.None? || s.classes[old_].instances != [] then Ok(s)
    else TransferBlocks(s, new_, Held(s.classes[old_].startOn.value), w)
  }

  /** job_class_consider */
  function Consider(s: Sys, c: ClassId, w: World): Result<Sys, Trap> {
    if !LiveClass(s, c) then Err(Trap("job_class_consider"))
    else
      var best := Select(s, s.classes[c].config.name);
      if best.None? then Err(Trap("job_class_consider: no best"))
      else
        var registered := Registered(s, s.classes[c].config.name);
        if registered == best then Ok(s)
        else if registered.None? then Ok(AddClass(s, best))
        else
          var s1 :- EventBlock(s, registered.value, best.value, w);
          if !LiveClass(s1, registered.value) then Err(Trap("job_class_consider"))
          else if s1.classes[registered.value].instances != [] then ResetStart(s1, best.value)
          else Ok(AddClass(s1.(registered := Without(s1.registered, registered.value)), best))
  }

  /** conf_file_destroy, once the file is out of its table */
  function Destroy(s: Sys, c: ClassId): Result<Sys, Trap> {
    if !LiveClass(s, c) then Err(Trap("conf_file_destroy"))
    else
      var r :- Reconsider(SetClass(s, c, s.classes[c].(deleted := true)), c);
      if r.gone then FreeClass(r.sys, c) else Ok(r.sys)
  }

  /** A new class, with its file at the given place among the configuration files. */
  function NewClass(s: Sys, at: nat, config: Config, startOn: Option<Cond>): Sys {
    var c := |s.classes|;
    var i := if at <= |s.files| then at else |s.files|;
    var t := if startOn.None? then None else Some(Fresh(startOn.value));
    s.(classes := s.classes + [JobClass(true, config, t, [], false)], files := s.files[..i] + [c] + s.files[i..])
  }

  /** conf_reload_path for a path not seen before */
  function LoadFile(s: Sys, at: nat, config: Config, startOn: Option<Cond>, w: World): Result<Sys, Trap> {
    Consider(NewClass(s, at, config, startOn), |s.classes|, w)
  }

  function IndexIn(ids: seq<ClassId>, c: ClassId): nat {
    if ids == [] || ids[0] == c then 0 else 1 + IndexIn(ids[1..], c)
  }

  /** conf_reload_path for a known path: the new class is considered before the old file is released. */
  function ReloadFile(s: Sys, c: ClassId, config: Config, startOn: Option<Cond>, w: World): Result<Sys, Trap> {
    if !LiveClass(s, c) || c !in s.files then Err(Trap("conf_reload_path"))
    else
      var at := IndexIn(s.files, c);
      var s1 := s.(files := Without(s.files, c));
      var s2 :- LoadFile(s1, at, config.(name := s.classes[c].config.name), startOn, w);
      Destroy(s2, c)
  }

  /** conf_reload_path for a path that can no longer be read or parsed */
  function RemoveFile(s: Sys, c: ClassId): Result<Sys, Trap> {
    Destroy(s.(files := Without(s.files, c)), c)
  }

  // ---- Inputs and runs ----

  datatype Input =
    | Emit(what: Occurrence)
    | PollEvents(turns: nat, luck: Oracle)
    | StartCommand(j: JobId, luck: Oracle)
    | StopCommand(j: JobId, luck: Oracle)
    | RestartCommand(j: JobId, luck: Oracle)
    | StartClassCommand(c: ClassId, env: Env, luck: Oracle)
    | SetupSucceeded(j: JobId, p: Process, luck: Oracle)
    | SetupFailed(j: JobId, p: Process, luck: Oracle)
    | MainReady(j: JobId, luck: Oracle)
    | Died(j: JobId, p: Process, status: int, now: int, respawnDisabled: bool, luck: Oracle)
    | KillTimerFired(j: JobId)
    | FileAppeared(at: nat, config: Config, startOn: Option<Cond>)
    | FileChanged(c: ClassId, config: Config, startOn: Option<Cond>)
    | FileVanished(c: ClassId)
    | ClassesReordered(i: nat)
    | InstancesReordered(c: ClassId, i: nat)

  function Swapped<T>(xs: seq<T>, i: nat): seq<T> {
    if i + 1 < |xs| then xs[i := xs[i + 1]][i + 1 := xs[i]] else xs
  }

  /** Whether the outside can do this now; it cannot report on processes that are not there. */
  predicate Possible(s: Sys, input: Input) {
    match input
    case StartCommand(j, _) => LiveJob(s, j)
    case StopCommand(j, _) => LiveJob(s, j)
    case RestartCommand(j, _) => LiveJob(s, j)
    case StartClassCommand(c, _, _) => c in s.registered
    case SetupSucceeded(j, p, _) => LiveJob(s, j) && p in s.jobs[j].setup
    case SetupFailed(j, p, _) => LiveJob(s, j) && p in s.jobs[j].setup
    case MainReady(j, _) =>
      && LiveJob(s, j) && s.jobs[j].state.Spawned? && MainProcess in s.jobs[j].procs && MainProcess !in s.jobs[j].setup
    case Died(j, p, _, _, _, _) => LiveJob(s, j) && p in s.jobs[j].procs && p !in s.jobs[j].setup
    case KillTimerFired(j) => LiveJob(s, j) && s.jobs[j].killTimer
    case FileChanged(c, _, _) => c in s.files
    case FileVanished(c) => c in s.files
    case InstancesReordered(c, _) => LiveClass(s, c)
    case _ => true
  }

  function Step(s: Sys, input: Input, w: World): Result<Sys, Trap> {
    if !Possible(s, input) then Ok(s)
    else
      match input
      case Emit(what) => Ok(EventNew(s, what, []))
      case PollEvents(turns, luck) =>
        var p :- Poll(s, 0, false, turns, w, luck);
        Ok(p.sys)
      case StartCommand(j, luck) => StartInstance(s, j, None, w, luck)
      case StopCommand(j, luck) => StopInstance(s, j, w, luck)
      case RestartCommand(j, luck) => RestartInstance(s, j, w, luck)
      case StartClassCommand(c, env, luck) => StartFromClass(s, c, env, w, luck)
      case SetupSucceeded(j, p, luck) => ChildReady(s, j, p, w, luck)
      case SetupFailed(j, p, luck) => ChildError(s, j, p, w, luck)
      case MainReady(j, luck) => AdvanceJob(s, j, w, luck)
      case Died(j, p, status, now, disabled, luck) => Terminated(s, j, p, status, now, disabled, w, luck)
      case KillTimerFired(j) => KillTimer(s, j)
      case FileAppeared(at, config, startOn) => LoadFile(s, at, config, startOn, w)
      case FileChanged(c, config, startOn) => ReloadFile(s, c, config, startOn, w)
      case FileVanished(c) => RemoveFile(s, c)
      case ClassesReordered(i) => Ok(s.(registered := Swapped(s.registered, i)))
      case InstancesReordered(c, i) =>
        Ok(SetClass(s, c, s.classes[c].(instances := Swapped(s.classes[c].instances, i))))
  }

  /** A run of the supervisor from the state it boots in. */
  function Run(inputs: seq<Input>, w: World): Result<Sys, Trap>
    decreases |inputs|
  {
    if inputs == [] then Ok(INITIAL)
    else
      var s :- Run(inputs[..|inputs| - 1], w);
      Step(s, inputs[|inputs| - 1], w)
  }
}

/**
 The supervisor: jobs, events and classes that hold references on each other.
 Objects live in heaps that only grow, so that a reference to a freed object can
 be told from a good one.  Every function is total: where the program would fail
 an assertion, lose a pid or touch freed memory, the result is a trap.
 */
module Supervisor {
  import opened Wrappers
  import opened Environ
  import opened Condition
  import opened ConditionEnviron
  import opened JobMachine

  type JobId = nat
  type ClassId = nat

  datatype Progress = Pending | Handling | Finished

  /** blockers: how many references are held on the event; blocking: the jobs that wait for it. */
  datatype Event = Event(live: bool, what: Occurrence, progress: Progress, failed: bool, blockers: nat,
    blocking: seq<JobId>)

  datatype JobClass = JobClass(live: bool, config: Config, startOn: Option<Cond>, instances: seq<JobId>, deleted: bool)

  /**
   What happens to an event: it is offered to the conditions, a job that waits for it goes
   on, a successor tells of its failure, it is freed.
   */
  datatype Act = Offered(e: EventId) | Woken(e: EventId, j: JobId) | Succeeded(e: EventId,
    successor: EventId) | Freed(e: EventId)

  /**
   queue: the list of events; registered: the table of classes; files: the
   classes of the configuration files, best source first; history: what has
   happened to events so far.
   */
  datatype Sys = Sys(
    jobs: seq<Job>,
    classes: seq<JobClass>,
    events: seq<Event>,
    queue: seq<EventId>,
    registered: seq<ClassId>,
    files: seq<ClassId>,
    history: seq<Act>)

  const INITIAL := Sys([], [], [], [], [], [], [])

  /** What the supervisor takes from elsewhere: pattern matching, init's environment, the variables of job events. */
  datatype World = World(
    matches: (string, seq<string>, Occurrence, Env) -> bool,
    jobEnviron: Env,
    outer: map<string, string>,
    eventEnv: (Config, Job, bool) -> Env)

  /**
   What the outside decides at the transitions of each job, told apart by the
   number of events there have been: between two decisions a job emits an event.
   */
  type Oracle = (JobId, nat) -> Luck

  predicate LiveJob(s: Sys, j: JobId) { j < |s.jobs| && s.jobs[j].live }
  predicate LiveEvent(s: Sys, e: EventId) { e < |s.events| && s.events[e].live }
  predicate LiveClass(s: Sys, c: ClassId) { c < |s.classes| && s.classes[c].live }

  function SetJob(s: Sys, j: JobId, job: Job): Sys
    requires j < |s.jobs|
  {
    s.(jobs := s.jobs[j := job])
  }

  function SetEvent(s: Sys, e: EventId, event: Event): Sys
    requires e < |s.events|
  {
    s.(events := s.events[e := event])
  }

  function SetClass(s: Sys, c: ClassId, cls: JobClass): Sys
    requires c < |s.classes|
  {
    s.(classes := s.classes[c := cls])
  }

  function Noted(s: Sys, act: Act): Sys { s.(history := s.history + [act]) }

  function Without<T(==)>(xs: seq<T>, x: T): seq<T> {
    if xs == [] then []
    else if xs[0] == x then Without(xs[1..], x)
    else [xs[0]] + Without(xs[1..], x)
  }

  // ---- Events and references (init/event.c) ----

  /** event_new */
  function EventNew(s: Sys, what: Occurrence, blocking: seq<JobId>): Sys {
    s.(events := s.events + [Event(true, what, Pending, false, 0, blocking)], queue := s.queue + [|s.events|])
  }

  /** event_block, n times */
  function Block(s: Sys, e: EventId, n: nat): (r: Result<Sys, Trap>)
    ensures r.Ok? ==> r.value == s.(events := r.value.events) && |r.value.events| == |s.events|
  {
    if !LiveEvent(s, e) then Err(Trap("event_block"))
    else Ok(SetEvent(s, e, s.events[e].(blockers := s.events[e].blockers + n)))
  }

  function BlockAll(s: Sys, es: seq<EventId>): (r: Result<Sys, Trap>)
    ensures r.Ok? ==> r.value == s.(events := r.value.events) && |r.value.events| == |s.events|
    decreases |es|
  {
    if es == [] then Ok(s)
    else
      var s1 :- Block(s, es[0], 1);
      BlockAll(s1, es[1..])
  }

  /** event_unblock */
  function Unblock(s: Sys, e: EventId): (r: Result<Sys, Trap>)
    ensures r.Ok? ==> r.value == s.(events := r.value.events) && |r.value.events| == |s.events|
  {
    if !LiveEvent(s, e) || s.events[e].blockers == 0 then Err(Trap("event_unblock"))
    else Ok(SetEvent(s, e, s.events[e].(blockers := s.events[e].blockers - 1)))
  }

  function UnblockAll(s: Sys, es: seq<EventId>): (r: Result<Sys, Trap>)
    ensures r.Ok? ==> r.value == s.(events := r.value.events) && |r.value.events| == |s.events|
    decreases |es|
  {
    if es == [] then Ok(s)
    else
      var s1 :- Unblock(s, es[0]);
      UnblockAll(s1, es[1..])
  }

  function HeldBy(t: Option<Cond>): seq<EventId> { if t.Some? then Held(t.value) else [] }

  function MarkFailed(s: Sys, e: EventId): Sys {
    if e < |s.events| then SetEvent(s, e, s.events[e].(failed := true)) else s
  }

  // ---- Jobs (init/job.c) ----

  /** job_finished */
  function JobFinished(s: Sys, j: JobId, failed: bool): (r: Result<Sys, Trap>)
    ensures r.Ok? ==>
              j < |s.jobs| && r.value == s.(events := r.value.events, jobs := s.jobs[j := s.jobs[j].(blocking := [])])
    ensures r.Ok? ==> |r.value.events| == |s.events|
    decreases if LiveJob(s, j) then |s.jobs[j].blocking| else 0
  {
    if !LiveJob(s, j) then Err(Trap("job_finished"))
    else
      var job := s.jobs[j];
      if job.blocking == [] then Ok(s)
      else
        var e := job.blocking[0];
        var s1 :- Unblock(if failed then MarkFailed(s, e) else s, e);
        JobFinished(SetJob(s1, j, job.(blocking := job.blocking[1..])), j, failed)
  }

  /** job_failed */
  function JobFailed(s: Sys, j: JobId, p: Option<Process>, status: int): Result<Sys, Trap> {
    if !LiveJob(s, j) then Err(Trap("job_failed"))
    else if s.jobs[j].failed then Ok(s)
    else JobFinished(SetJob(s, j, s.jobs[j].(failed := true, failedProcess := p, exitStatus := status)), j, true)
  }

  function EventName(state: JobState): string {
    match state
    case Starting => "starting"
    case Running => "started"
    case Stopping => "stopping"
    case _ => "stopped"
  }

  /** job_emit_event */
  function EmitEvent(s: Sys, j: JobId, blocks: bool, w: World): Result<Sys, Trap> {
    if !LiveJob(s, j) || s.jobs[j].cls >= |s.classes| then Err(Trap("job_emit_event"))
    else
      var job := s.jobs[j];
      var stop := job.state.Stopping? || job.state.Waiting?;
      var what := Occurrence(EventName(job.state), w.eventEnv(s.classes[job.cls].config, job, stop));
      Ok(EventNew(s, what, if blocks then [j] else []))
  }

  /** What entering a state does outside the job. */
  function Perform(s: Sys, j: JobId, effect: Effect, w: World): Result<Sys, Trap> {
    if !LiveJob(s, j) then Err(Trap("job_change_state"))
    else
      match effect
      case Nothing => Ok(s)
      case EmitAndBlock =>
        var s1 :- EmitEvent(s, j, true, w);
        Ok(SetJob(s1, j, s1.jobs[j].(blocker := Some(|s.events|))))
      case EmitStarted => EmitEvent(s, j, false, w)
      case EmitStartedAndFinish =>
        var s1 :- EmitEvent(s, j, false, w);
        JobFinished(s1, j, false)
      case FinishOnly => JobFinished(s, j, false)
      case EmitAndFree =>
        var s1 :- EmitEvent(s, j, false, w);
        var s2 :- JobFinished(s1, j, false);
        Retire(s2, j)
  }

  /** job_change_state: nothing happens to a job that is already there or is blocked. */
  function ChangeState(s: Sys, j: JobId, target: JobState, w: World, luck: Oracle): Result<Sys, Trap> {
    if !LiveJob(s, j) || !LiveClass(s, s.jobs[j].cls) then Err(Trap("job_change_state"))
    else
      var job := s.jobs[j];
      if job.state == target || job.blocker.Some? then Ok(s)
      else
        var r :- Settle(s.classes[job.cls].config, job, target, luck(j, |s.events|));
        Perform(SetJob(s, j, r.job), j, r.effect, w)
  }

  /** job_change_state (job, job_next_state (job)) */
  function AdvanceJob(s: Sys, j: JobId, w: World, luck: Oracle): Result<Sys, Trap> {
    if !LiveJob(s, j) || !LiveClass(s, s.jobs[j].cls) then Err(Trap("job_next_state"))
    else
      var d :- NextState(s.classes[s.jobs[j].cls].config, s.jobs[j]);
      ChangeState(SetJob(s, j, d.job), j, d.target, w, luck)
  }

  /** job_change_goal */
  function ChangeGoal(s: Sys, j: JobId, goal: Goal, w: World, luck: Oracle): Result<Sys, Trap> {
    if !LiveJob(s, j) then Err(Trap("job_change_goal"))
    else if s.jobs[j].goal == goal then Ok(s)
    else
      var s1 := SetJob(s, j, s.jobs[j].(goal := goal));
      if (goal.Start? && s.jobs[j].state.Waiting?) || (goal.Stop? && s.jobs[j].state.Running?) then
        AdvanceJob(s1, j, w, luck)
      else Ok(s1)
  }

  // ---- Classes (init/job_class.c, init/conf.c) ----

  /** The first class of the list with the name. */
  function Named(s: Sys, ids: seq<ClassId>, name: string): Option<ClassId> {
    if ids == [] then None
    else if ids[0] < |s.classes| && s.classes[ids[0]].config.name == name then Some(ids[0])
    else Named(s, ids[1..], name)
  }

  /** conf_select_job */
  function Select(s: Sys, name: string): Option<ClassId> { Named(s, s.files, name) }

  /** job_class_get_registered */
  function Registered(s: Sys, name: string): Option<ClassId> { Named(s, s.registered, name) }

  function AddClass(s: Sys, c: Option<ClassId>): Sys {
    if c.Some? then s.(registered := s.registered + [c.value]) else s
  }

  datatype Reconsidered = Reconsidered(sys: Sys, gone: bool)

  /** job_class_reconsider */
  function Reconsider(s: Sys, c: ClassId): Result<Reconsidered, Trap> {
    if !LiveClass(s, c) then Err(Trap("job_class_reconsider"))
    else
      var name := s.classes[c].config.name;
      var best := Select(s, name);
      if Registered(s, name) != Some(c) then Ok(Reconsidered(s, true))
      else if best == Some(c) || s.classes[c].instances != [] then Ok(Reconsidered(s, false))
      else Ok(Reconsidered(AddClass(s.(registered := Without(s.registered, c)), best), true))
  }

  /** nih_free of a class: its start condition gives back what it holds. */
  function FreeClass(s: Sys, c: ClassId): Result<Sys, Trap> {
    if !LiveClass(s, c) then Err(Trap("class freed twice"))
    else if c in s.registered || s.classes[c].instances != [] || c in s.files then Err(Trap("class freed while in use"))
    else
      var s1 :- UnblockAll(s, HeldBy(s.classes[c].startOn));
      Ok(SetClass(s1, c, s1.classes[c].(live := false, startOn := None)))
  }

  /** nih_free of a job that has left its class's table: its stop condition gives back what it holds. */
  function FreeJob(s: Sys, j: JobId): Result<Sys, Trap> {
    if !LiveJob(s, j) || !LiveClass(s, s.jobs[j].cls) then Err(Trap("job freed twice"))
    else if s.jobs[j].blocker.Some? || s.jobs[j].blocking != [] then Err(Trap("job freed while in use"))
    else
      var job := s.jobs[j];
      var s1 :- UnblockAll(s, HeldBy(job.stopOn));
      var s2 := SetJob(s1, j, job.(live := false, stopOn := None, procs := {}, setup := {}));
      var cls := s2.classes[job.cls];
      Ok(SetClass(s2, job.cls, cls.(instances := Without(cls.instances, j))))
  }

  /** The end of an instance: a better class may take over, and a deleted class goes with its last instance. */
  function Retire(s: Sys, j: JobId): Result<Sys, Trap> {
    if !LiveJob(s, j) then Err(Trap("job_change_state: waiting"))
    else
      var c := s.jobs[j].cls;
      var s1 :- FreeJob(s, j);
      var r :- Reconsider(s1, c);
      if r.sys.classes[c].deleted && r.gone then FreeClass(r.sys, c) else Ok(r.sys)
  }
}

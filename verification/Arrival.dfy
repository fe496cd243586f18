/**
 Where a job goes when it leaves the state it rests in, and everything that is different
 when it has arrived, read off its state, its goal, its class and its live processes.
 */
module Arrival {
  import opened Wrappers
  import opened Condition
  import opened ConditionEnviron
  import opened JobMachine
  import opened JobReactions
  import opened Supervisor
  import opened Invariant
  import opened Transitions

  // ---- The next place to rest ----

  /** A place on the way up, and whether a job of the class stops there. */
  datatype Stage = Stage(place: JobState, kept: bool)

  /** The way from starting to running. */
  function WayUp(config: Config, luck: Luck): seq<Stage> {
    [Stage(Security, SecurityProcess in config.processes && luck.apparmor),
     Stage(PreStart, PreStartProcess in config.processes),
     Stage(Spawned, MainProcess in config.processes),
     Stage(PostStart, PostStartProcess in config.processes)]
  }

  function FirstKept(way: seq<Stage>): JobState {
    if way == [] then Running else if way[0].kept then way[0].place else FirstKept(way[1..])
  }

  /** How much of the way up is behind a job in this state. */
  function Climbed(state: JobState): nat {
    match state
    case Security => 1
    case PreStart => 2
    case Spawned => 3
    case PostStart => 4
    case _ => 0
  }

  /** Where a job that stops is when it has nothing left to kill. */
  function WayDown(config: Config, goal: Goal): JobState {
    if PostStopProcess in config.processes then PostStop else if goal.Start? then Starting else Waiting
  }

  /** The place where the job rests next. */
  function Rests(config: Config, job: Job, luck: Luck): JobState {
    match job.state
    case Stopping => if MainProcess in job.procs then Killed else WayDown(config, job.goal)
    case Killed => WayDown(config, job.goal)
    case PostStop => if job.goal.Start? then Starting else Waiting
    case Waiting => Starting
    case Running =>
      if job.goal.Stop? && MainProcess in job.procs && PreStopProcess in config.processes then PreStop else Stopping
    case PreStop => if job.goal.Start? then Running else Stopping
    case _ => if job.goal.Start? then FirstKept(WayUp(config, luck)[Climbed(job.state)..]) else Stopping
  }

  lemma FirstKeptUp(config: Config, luck: Luck)
    ensures var way := WayUp(config, luck);
            && FirstKept(way[4..]) == Running
            && FirstKept(way[3..]) == (if PostStartProcess in config.processes then PostStart else Running)
            && FirstKept(way[2..]) == (if MainProcess in config.processes then Spawned else FirstKept(way[3..]))
            && FirstKept(way[1..]) == (if PreStartProcess in config.processes then PreStart else FirstKept(way[2..]))
            && FirstKept(way[0..]) == (if Secured(config, luck) then Security else FirstKept(way[1..]))
  {
    var way := WayUp(config, luck);
    assert way[3..][1..] == way[4..] && way[2..][1..] == way[3..];
    assert way[1..][1..] == way[2..] && way[0..][1..] == way[1..];
  }

  predicate GoesUp(job: Job) {
    && job.goal.Start?
    && (job.state.Starting? || job.state.Security? || job.state.PreStart? || job.state.Spawned? || job.state.PostStart?)
  }

  lemma RestsUp(config: Config, job: Job, luck: Luck)
    requires GoesUp(job)
    ensures NextState(config, job).Ok?
    ensures var d := NextState(config, job).value;
            && d.job == job && !(d.target.Running? && job.state.PreStop?)
            && Rests(config, job, luck) == Destination(config, true, MainProcess in job.procs, d.target, luck)
  {
    FirstKeptUp(config, luck);
    hide FirstKept, WayUp;
  }

  /** The decision of job_next_state, and where the loop of job_change_state then ends. */
  predicate LeadsThere(config: Config, job: Job, luck: Luck) {
    && NextState(config, job).Ok?
    && var d := NextState(config, job).value;
       && d.job == job.(goal := if job.goal.Respawning? then Start else job.goal)
       && Rests(config, job, luck) ==
          Destination(config, d.job.goal.Start?, MainProcess in job.procs, d.target, luck)
       && (d.target.Running? && job.state.PreStop? <==> Rests(config, job, luck).Running? && job.state.PreStop?)
  }

  predicate GoesDown(job: Job) { job.state.Stopping? || job.state.Killed? || job.state.PostStop? }

  lemma RestsDown(config: Config, job: Job, luck: Luck)
    requires GoesDown(job) && !GoesUp(job) && NextState(config, job).Ok? && job.procs <= config.processes
    ensures LeadsThere(config, job, luck)
  {
    hide FirstKept, WayUp;
  }

  lemma RestsAside(config: Config, job: Job, luck: Luck)
    requires !GoesDown(job) && !GoesUp(job) && NextState(config, job).Ok? && job.procs <= config.processes
    requires !IsSpawningState(job.state)
    ensures LeadsThere(config, job, luck)
  {
    hide FirstKept, WayUp;
  }

  /** The decision table and the loop of job_change_state lead there. */
  lemma RestsThere(config: Config, job: Job, luck: Luck)
    requires Departs(config, job) && !IsSpawningState(job.state)
    ensures LeadsThere(config, job, luck)
  {
    hide Rests, Destination, NextState, Moving, GoesUp, GoesDown;
    ProcsConfigured(config, job);
    if GoesUp(job) {
      RestsUp(config, job, luck);
      UpOnly(job);
    } else if GoesDown(job) {
      RestsDown(config, job, luck);
    } else {
      RestsAside(config, job, luck);
    }
  }

  lemma UpOnly(job: Job)
    requires GoesUp(job)
    ensures job.goal.Start? && !job.state.PreStop?
  {
  }

  lemma ProcsConfigured(config: Config, job: Job)
    requires Departs(config, job)
    ensures job.procs <= config.processes && !job.killTimer && job.blocker.None?
  {
    var d := NextState(config, job).value;
    assert Moving(config, d.job, d.target, Luck(true, true));
  }

  // ---- The job on arrival ----

  /** The job at its new place; back says that it has cancelled its stop. */
  function Landed(job: Job, place: JobState, back: bool, luck: Luck): Job {
    var there := job.(
      state := place,
      procs := job.procs + Inhabitants(place),
      setup := job.setup + Inhabitants(place),
      killTimer := if place.Killed? then luck.signalled else job.killTimer,
      stopEnv := if place.Starting? || back then None else job.stopEnv);
    if !place.Starting? then there
    else
      there.(env := if job.startEnv.Some? then job.startEnv.value else job.env, startEnv := None,
             failed := false, failedProcess := None, exitStatus := 0)
  }

  /** A process that the target waits for has just been started. */
  predicate JustStarted(job: Job, target: JobState) { Inhabitants(target) * job.procs <= job.setup }

  lemma EnterLands(config: Config, job: Job, target: JobState, luck: Luck)
    requires Moving(config, job, target, luck) && JustStarted(job, target) && Enter(config, job, target, luck).Ok?
    requires Enter(config, job, target, luck).value.next == target
    ensures var e := Enter(config, job, target, luck).value;
            e.job.state == target && e.job == Landed(job, target, target.Running? && job.state.PreStop?, luck)
  {
  }

  /** A turn that goes on changes the state, and may start the process of the next state. */
  ghost predicate Passes(config: Config, job: Job, target: JobState, e: Entry, luck: Luck) {
    && JustStarted(e.job, e.next) && (e.next.Running? ==> !target.PreStop?) && !target.Running?
    && (|| e.job == job.(state := target)
        || (&& e.job == job.(state := target, procs := job.procs + Inhabitants(e.next),
                             setup := job.setup + Inhabitants(e.next))
            && Onward(config, job.goal.Start?, MainProcess in e.job.procs, e.next, luck) == e.next))
  }

  lemma EnterPassesUp(config: Config, job: Job, target: JobState, luck: Luck)
    requires Moving(config, job, target, luck) && Enter(config, job, target, luck).Ok? && TowardsSpawned(target)
    requires Enter(config, job, target, luck).value.next != target
    ensures Passes(config, job, target, Enter(config, job, target, luck).value, luck)
  {
  }

  lemma EnterPassesDown(config: Config, job: Job, target: JobState, luck: Luck)
    requires Moving(config, job, target, luck) && Enter(config, job, target, luck).Ok? && !TowardsSpawned(target)
    requires Enter(config, job, target, luck).value.next != target
    ensures Passes(config, job, target, Enter(config, job, target, luck).value, luck)
  {
  }

  lemma LandedFurther(job: Job, mid: Job, target: JobState, next: JobState, place: JobState, luck: Luck)
    requires mid == job.(state := target)
             || (&& place == next
                 && mid ==
                    job.(state := target, procs := job.procs + Inhabitants(next),
                      setup := job.setup + Inhabitants(next)))
    ensures Landed(mid, place, false, luck) == Landed(job, place, false, luck)
  {
    hide Inhabitants;
    assert job.procs + Inhabitants(place) + Inhabitants(place) == job.procs + Inhabitants(place);
    assert job.setup + Inhabitants(place) + Inhabitants(place) == job.setup + Inhabitants(place);
  }

  lemma {:induction false} SettleLands(config: Config, job: Job, target: JobState, luck: Luck)
    requires Moving(config, job, target, luck) && JustStarted(job, target) && Settle(config, job, target, luck).Ok?
    ensures var r := Settle(config, job, target, luck).value.job;
            r == Landed(job, r.state, target.Running? && job.state.PreStop?, luck)
    decreases Rank(target)
  {
    hide Enter, Moving, Destination, Onward, Landed, Inhabitants, JustStarted;
    EnterMoves(config, job, target, luck);
    EnterRanks(config, job, target, luck);
    var e := Enter(config, job, target, luck).value;
    if e.next == target {
      EnterLands(config, job, target, luck);
    } else {
      if TowardsSpawned(target) {
        EnterPassesUp(config, job, target, luck);
      } else {
        EnterPassesDown(config, job, target, luck);
      }
      var alive := MainProcess in e.job.procs;
      SettleDestination(config, e.job, alive, e.next, luck);
      OnwardDestination(config, e.job.goal.Start?, alive, e.next, luck);
      SettleLands(config, e.job, e.next, luck);
      LandedFurther(job, e.job, target, e.next, Settle(config, e.job, e.next, luck).value.job.state, luck);
    }
  }

  // ---- In the whole system ----

  /** Exactly these existing events are newly marked as failed, and no new event is. */
  ghost predicate Marks(s: Sys, r: Sys, es: seq<EventId>) {
    && |s.events| <= |r.events|
    && (forall e :: 0 <= e < |s.events| ==> r.events[e].failed == (s.events[e].failed || e in es))
    && (forall e :: |s.events| <= e < |r.events| ==> !r.events[e].failed)
  }

  lemma MarksChain(a: Sys, b: Sys, c: Sys, es: seq<EventId>, fs: seq<EventId>)
    requires Marks(a, b, es) && Marks(b, c, fs) && forall e :: e in fs ==> e < |a.events|
    ensures Marks(a, c, es + fs)
  {
  }

  /** The job has gone back to running, having cancelled its stop. */
  predicate GoesBack(job: Job, place: JobState) { job.state.PreStop? && place.Running? }

  /** The job when it emits the event of its new place. */
  function AtPlace(config: Config, job: Job, luck: Luck): Job {
    var place := Rests(config, job, luck);
    Landed(job.(goal := if job.goal.Respawning? then Start else job.goal), place, GoesBack(job, place), luck)
  }

  /** The job when it rests again: it may wait for an event, and what it blocks is given back once a service runs. */
  function Arrived(config: Config, job: Job, luck: Luck, e: EventId): Job {
    var place := Rests(config, job, luck);
    AtPlace(config, job, luck).(
      blocker := if Blocked(place) then Some(e) else None,
      blocking := if place.Running? && (GoesBack(job, place) || !config.task) then [] else job.blocking)
  }

  /** The name of the event that tells of the new place, if there is one. */
  function Tells(config: Config, job: Job, luck: Luck): Option<string> {
    var place := Rests(config, job, luck);
    if GoesBack(job, place) then None else Announced(place)
  }

  /**
   The job has left the state it rested in, as the given record, and has arrived: it is freed
   if it has nothing to wait for any more, and else everything about it is as it should be;
   and the event of its new place has been emitted, and no other.
   */
  ghost predicate MovedOn(s: Sys, job: Job, r: Sys, j: JobId, w: World, luck: Oracle)
    requires job.cls < |s.classes|
  {
    var config, chance := s.classes[job.cls].config, luck(j, |s.events|);
    var place, name := Rests(config, job, chance), Tells(config, job, chance);
    && (LiveJob(r, j) <==> !place.Waiting?)
    && (LiveJob(r, j) ==> r.jobs[j] == Arrived(config, job, chance, |s.events|))
    && (if name.None? then |r.events| == |s.events|
        else
          && |r.events| == |s.events| + 1
          && r.events[|s.events|].what ==
             Occurrence(name.value, w.eventEnv(config, AtPlace(config, job, chance), place.Stopping? || place.Waiting?))
          && r.events[|s.events|].blocking == (if Blocked(place) then [j] else []))
  }

  /** What performing the effect of the state leaves of the job and the events. */
  lemma PerformExactly(s: Sys, j: JobId, effect: Effect, back: bool, w: World)
    requires LiveJob(s, j) && LiveClass(s, s.jobs[j].cls) && Perform(s, j, effect, w).Ok? && s.jobs[j].blocker.None?
    requires effect == Consequence(s.classes[s.jobs[j].cls].config, s.jobs[j].state, back)
    requires back ==> s.jobs[j].state.Running?
    ensures var r, job, config := Perform(s, j, effect, w).value, s.jobs[j], s.classes[s.jobs[j].cls].config;
            && Marks(s, r, [])
            && (!effect.EmitAndFree? ==>
                  && j < |r.jobs|
                  && r.jobs[j] == job.(
                       blocker := if Blocked(job.state) then Some(|s.events|) else None,
                       blocking := if job.state.Running? && (back || !config.task) then [] else job.blocking))
            && (if back || Announced(job.state).None? then |r.events| == |s.events|
                else
                  && |r.events| == |s.events| + 1
                  && r.events[|s.events|].what == Occurrence(Announced(job.state).value,
                       w.eventEnv(config, job, job.state.Stopping? || job.state.Waiting?))
                  && r.events[|s.events|].blocking == (if Blocked(job.state) then [j] else []))
  {
    hide JobFinished, Retire;
    match effect
    case EmitStartedAndFinish =>
      var s1 := EmitEvent(s, j, false, w).value;
      FinishKeepsEvents(s1, j, JobFinished(s1, j, false).value);
    case FinishOnly => FinishKeepsEvents(s, j, JobFinished(s, j, false).value);
    case EmitAndFree =>
      var s1 := EmitEvent(s, j, false, w).value;
      var s2 := JobFinished(s1, j, false).value;
      FinishKeepsEvents(s1, j, s2);
      RetireKeepsEvents(s2, j);
    case _ =>
  }

  /** job_change_state (job, job_next_state (job)): from every state, with every goal, exactly this happens. */
  lemma AdvanceArrives(s: Sys, j: JobId, w: World, luck: Oracle)
    requires Base(s) && LiveJob(s, j) && OthersAtRest(s, j) && LiveClass(s, s.jobs[j].cls)
    requires Departs(s.classes[s.jobs[j].cls].config, s.jobs[j]) && !IsSpawningState(s.jobs[j].state)
    ensures AdvanceJob(s, j, w, luck).Ok?
    ensures MovedOn(s, s.jobs[j], AdvanceJob(s, j, w, luck).value, j, w, luck)
    ensures Marks(s, AdvanceJob(s, j, w, luck).value, [])
  {
    hide Base, OthersAtRest, Inv, Touches, Settle, Perform, Destination, Rests, Landed, Moving, Inhabitants, Marks;
    AdvanceKeeps(s, j, w, luck);
    var config, chance := s.classes[s.jobs[j].cls].config, luck(j, |s.events|);
    RestsThere(config, s.jobs[j], chance);
    var d := NextState(config, s.jobs[j]).value;
    MovingApart(config, d.job, d.target, chance);
    TargetFresh(config, s.jobs[j]);
    SettleSettles(config, d.job, d.target, chance);
    SettleDestination(config, d.job, MainProcess in d.job.procs, d.target, chance);
    SettleEffect(config, d.job, d.target, chance);
    SettleLands(config, d.job, d.target, chance);
    var rest := Settle(config, d.job, d.target, chance).value;
    var s1 := SetJob(SetJob(s, j, d.job), j, rest.job);
    PerformExactly(s1, j, rest.effect, d.target.Running? && d.job.state.PreStop?, w);
    MarksHere(s, s1, Perform(s1, j, rest.effect, w).value, []);
  }

  lemma MarksHere(s: Sys, s1: Sys, r: Sys, es: seq<EventId>)
    requires s1.events == s.events && Marks(s1, r, es)
    ensures Marks(s, r, es)
  {
  }

  /** No way out of a rest state begins where a process is awaited. */
  lemma TargetFresh(config: Config, job: Job)
    requires Departs(config, job) && !IsSpawningState(job.state)
    ensures var d := NextState(config, job).value; JustStarted(d.job, d.target)
  {
    hide Moving;
  }

  /** Only the number of events and the classes matter. */
  lemma MovedFrom(s: Sys, s1: Sys, job: Job, r: Sys, j: JobId, w: World, luck: Oracle)
    requires job.cls < |s.classes| && s1.classes == s.classes && |s1.events| == |s.events|
    requires MovedOn(s1, job, r, j, w, luck)
    ensures MovedOn(s, job, r, j, w, luck)
  {
    hide Rests, AtPlace, Arrived, Tells;
  }

  /** The job rests as the given record, and no event has been emitted. */
  ghost predicate RestsAs(s: Sys, job: Job, r: Sys, j: JobId) {
    LiveJob(r, j) && r.jobs[j] == job && |r.events| == |s.events|
  }

  /** The job once a failure has been recorded, unless one was before; what it blocked is given back. */
  function Blamed(job: Job, really: bool, p: Option<Process>, status: int): Job {
    if really && !job.failed then job.(failed := true, failedProcess := p, exitStatus := status, blocking := [])
      else job
  }

  /** The events that fail with the job. */
  function Dragged(job: Job, really: bool): seq<EventId> { if really && !job.failed then job.blocking else [] }

  /** job_change_goal: exactly this happens to the job. */
  lemma GoalExactly(s: Sys, j: JobId, goal: Goal, w: World, luck: Oracle)
    requires Inv(s) && LiveJob(s, j) && !goal.Respawning?
    ensures ChangeGoal(s, j, goal, w, luck).Ok? && LiveClass(s, s.jobs[j].cls)
    ensures var r, job := ChangeGoal(s, j, goal, w, luck).value, s.jobs[j].(goal := goal);
            && Marks(s, r, [])
            && if s.jobs[j].goal != goal && (s.jobs[j].state.Waiting? || s.jobs[j].state.Running?)
               then MovedOn(s, job, r, j, w, luck) else RestsAs(s, job, r, j)
  {
    hide Base, OthersAtRest, AdvanceJob, Departs, Steady, MovedOn;
    assert JobAtRest(s, j);
    var job := s.jobs[j];
    var config := s.classes[job.cls].config;
    InvBut(s, j);
    RestGoals(config, job);
    if job.goal != goal && (job.state.Waiting? || job.state.Running?) && !(job.goal.Respawning?) {
      GoalDeparts(config, job, goal);
      LocalChange(s, j, job.(goal := goal));
      var s1 := SetJob(s, j, job.(goal := goal));
      AdvanceArrives(s1, j, w, luck);
      MovedFrom(s, s1, s1.jobs[j], AdvanceJob(s1, j, w, luck).value, j, w, luck);
      MarksHere(s, s1, AdvanceJob(s1, j, w, luck).value, []);
    }
  }

  /** The goals of jobs at the natural rest states. */
  lemma RestGoals(config: Config, job: Job)
    requires JobOk(config, job)
    ensures (job.state.Waiting? ==> job.goal.Stop?) && (job.state.Running? ==> job.goal.Start?)
    ensures !IsSpawningState(job.state)
  {
  }

  /** The job is exactly this, no event has been emitted, and exactly these events are newly marked as failed. */
  ghost predicate Exact(s: Sys, r: Sys, j: JobId, job: Job, es: seq<EventId>) {
    RestsAs(s, job, r, j) && r.classes == s.classes && Marks(s, r, es)
  }

  lemma ExactSelf(s: Sys, j: JobId)
    requires LiveJob(s, j)
    ensures Exact(s, s, j, s.jobs[j], [])
  {
  }

  lemma ExactLocal(s: Sys, j: JobId, job: Job)
    requires LiveJob(s, j) && job.live
    ensures Exact(s, SetJob(s, j, job), j, job, [])
  {
  }

  /** What is done next is done to the job as it is. */
  lemma ExactChain(a: Sys, b: Sys, c: Sys, j: JobId, x: Job, y: Job, es: seq<EventId>, fs: seq<EventId>)
    requires Exact(a, b, j, x, es) && Exact(b, c, j, y, fs) && (es == [] || fs == [])
    ensures Exact(a, c, j, y, es + fs)
  {
  }

  /** The job moves on as it is. */
  ghost predicate Moves(s: Sys, r: Sys, j: JobId, job: Job, es: seq<EventId>, w: World, luck: Oracle) {
    job.cls < |s.classes| && MovedOn(s, job, r, j, w, luck) && Marks(s, r, es)
  }

  lemma ExactMoves(a: Sys, b: Sys, r: Sys, j: JobId, x: Job, es: seq<EventId>, w: World, luck: Oracle)
    requires Exact(a, b, j, x, es) && Moves(b, r, j, x, [], w, luck)
    ensures Moves(a, r, j, x, es, w, luck)
  {
    hide MovedOn;
    MovedFrom(a, b, x, r, j, w, luck);
    assert es + [] == es;
  }

  lemma MovesLater(a: Sys, b: Sys, r: Sys, j: JobId, x: Job, y: Job, es: seq<EventId>, fs: seq<EventId>, w: World,
    luck: Oracle)
    requires Exact(a, b, j, x, es) && Moves(b, r, j, y, fs, w, luck) && (es == [] || fs == [])
    ensures Moves(a, r, j, y, es + fs, w, luck)
  {
    hide MovedOn;
    MovedFrom(a, b, y, r, j, w, luck);
  }

  lemma MarksSame(s: Sys, s1: Sys, s2: Sys, es: seq<EventId>)
    requires Marks(s, s1, es) && s2.events == s1.events
    ensures Marks(s, s2, es)
  {
  }

  /** job_change_state to stopping: exactly this happens. */
  lemma StoppingExactly(s: Sys, j: JobId, w: World, luck: Oracle)
    requires LiveJob(s, j) && LiveClass(s, s.jobs[j].cls) && s.jobs[j].blocker.None? && !s.jobs[j].state.Stopping?
    requires ChangeState(s, j, Stopping, w, luck).Ok?
    ensures HeldUp(s, ChangeState(s, j, Stopping, w, luck).value, j, s.jobs[j], s.jobs[j].procs, s.jobs[j].setup, w)
  {
    hide Perform, Marks, Settle, Enter;
    var job, config := s.jobs[j], s.classes[s.jobs[j].cls].config;
    StoppingSettles(config, job, luck(j, |s.events|));
    var rest := Settle(config, job, Stopping, luck(j, |s.events|)).value;
    var s1 := SetJob(s, j, rest.job);
    PerformExactly(s1, j, EmitAndBlock, false, w);
    MarksHere(s, s1, Perform(s1, j, EmitAndBlock, w).value, []);
  }

  lemma StoppingSettles(config: Config, job: Job, luck: Luck)
    requires Settle(config, job, Stopping, luck).Ok?
    ensures Settle(config, job, Stopping, luck).value == Rest(job.(state := Stopping), EmitAndBlock)
  {
  }

  /** The job has gone straight to stopping, waits for its event there, and has these processes. */
  ghost predicate HeldUp(s: Sys, r: Sys, j: JobId, job: Job, procs: set<Process>, setup: set<Process>, w: World) {
    && job.cls < |s.classes| && LiveJob(r, j) && Marks(s, r, []) && |r.events| == |s.events| + 1
    && r.jobs[j] == job.(state := Stopping, blocker := Some(|s.events|), procs := procs, setup := setup)
    && r.events[|s.events|].what ==
       Occurrence("stopping", w.eventEnv(s.classes[job.cls].config, job.(state := Stopping), true))
    && r.events[|s.events|].blocking == [j]
  }
}

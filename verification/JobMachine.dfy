/**
 The life of one job instance: goals, the seventeen states, the decision table
 and the actions on entering a state, as far as they touch the job alone
 (init/job.c:387-850).
 */
module JobMachine {
  import opened Wrappers
  import opened Environ
  import opened Condition
  import opened Respawn

  datatype Goal = Stop | Start | Respawning

  datatype JobState =
    | Waiting | Starting | SecuritySpawning | Security | PreStarting | PreStart | Spawning | Spawned
    | PostStarting | PostStart | Running | PreStopping | PreStop | Stopping | Killed | PostStopping | PostStop

  datatype Process =
    | MainProcess | PreStartProcess | PostStartProcess | PreStopProcess | PostStopProcess | SecurityProcess

  /** What a job's class says about it. */
  datatype Config = Config(
    name: string,
    instance: string,
    env: Env,
    processes: set<Process>,
    task: bool,
    respawn: bool,
    limit: Limit,
    normalExit: seq<int>,
    expectsNothing: bool,
    stopOn: Option<Cond>)

  datatype Job = Job(
    live: bool,
    cls: nat,
    name: string,
    goal: Goal,
    state: JobState,
    env: Env,
    startEnv: Option<Env>,
    stopEnv: Option<Env>,
    stopOn: Option<Cond>,
    procs: set<Process>,          // processes whose pid is known
    setup: set<Process>,          // those whose setup pipe has not reported yet
    blocker: Option<EventId>,
    blocking: seq<EventId>,
    killTimer: bool,
    failed: bool,
    failedProcess: Option<Process>,
    exitStatus: int,
    window: Window)

  /** An assertion of the program that does not hold, or memory used after it was freed. */
  datatype Trap = Trap(site: string)

  /** What the outside decides during a transition: whether AppArmor is there, whether a signal can be sent. */
  datatype Luck = Luck(apparmor: bool, signalled: bool)

  /** What entering a state does outside the job. */
  datatype Effect = Nothing | EmitAndBlock | EmitStarted | EmitStartedAndFinish | FinishOnly | EmitAndFree

  function NewJob(cls: nat, name: string, config: Config): Job {
    var stopOn := if config.stopOn.None? then None else Some(Fresh(config.stopOn.value));
    Job(true, cls, name, Stop, Waiting, [], None, None, stopOn, {}, {}, None, [], false, false, None, 0, Window(0, 0))
  }

  datatype Decision = Decision(job: Job, target: JobState)

  /** job_next_state; a goal of respawn is turned into start on the way. */
  function NextState(config: Config, job: Job): Result<Decision, Trap> {
    if job.goal.Respawning? then
      if job.state.PostStart? || job.state.PreStop? then Ok(Decision(job.(goal := Start), Stopping))
      else Err(Trap("job_next_state: respawn"))
    else
      var start := job.goal.Start?;
      match job.state
      case Waiting => if start then Ok(Decision(job, Starting)) else Err(Trap("job_next_state: waiting"))
      case Starting => Ok(Decision(job, if start then SecuritySpawning else Stopping))
      case SecuritySpawning => Ok(Decision(job, if start then Security else Stopping))
      case Security => Ok(Decision(job, if start then PreStarting else Stopping))
      case PreStarting => Ok(Decision(job, if start then PreStart else Stopping))
      case PreStart => Ok(Decision(job, if start then Spawning else Stopping))
      case Spawning => Ok(Decision(job, if start then Spawned else Stopping))
      case Spawned => Ok(Decision(job, if start then PostStarting else Stopping))
      case PostStarting => Ok(Decision(job, if start then PostStart else Stopping))
      case PostStart => Ok(Decision(job, if start then Running else Stopping))
      case Running =>
        Ok(Decision(job, if !start && MainProcess in config.processes && MainProcess in job.procs then PreStopping
          else Stopping))
      case PreStopping => Ok(Decision(job, PreStop))
      case PreStop => Ok(Decision(job, if start then Running else Stopping))
      case Stopping => Ok(Decision(job, Killed))
      case Killed => Ok(Decision(job, PostStopping))
      case PostStopping => Ok(Decision(job, PostStop))
      case PostStop => Ok(Decision(job, if start then Starting else Waiting))
  }

  /** job_process_start: a pid slot that is in use must not be lost. */
  function StartProcess(job: Job, p: Process): Result<Job, Trap> {
    if p in job.procs then Err(Trap("job_process_start: pid overwritten"))
    else Ok(job.(procs := job.procs + {p}, setup := job.setup + {p}))
  }

  function StartIfConfigured(config: Config, job: Job, p: Process): Result<Job, Trap> {
    if p in config.processes then StartProcess(job, p) else Ok(job)
  }

  /** job_process_kill on the main process; without a signal no timer is set. */
  function Kill(job: Job, luck: Luck): Result<Job, Trap> {
    if MainProcess !in job.procs || job.killTimer then Err(Trap("job_process_kill"))
    else Ok(job.(killTimer := luck.signalled))
  }

  datatype Entry = Entry(job: Job, effect: Effect, next: JobState)

  function Rank(state: JobState): nat {
    match state
    case SecuritySpawning => 9
    case Security => 8
    case PreStarting => 7
    case PreStart => 6
    case Spawning => 5
    case Spawned => 4
    case PostStarting => 3
    case PostStart => 2
    case Running => 1
    case PreStopping => 3
    case PreStop => 2
    case Killed => 4
    case PostStopping => 3
    case PostStop => 2
    case Stopping => 1
    case Starting => 1
    case Waiting => 1
  }

  /** The job stays in the state it has just entered. */
  function Stay(job: Job, effect: Effect): Result<Entry, Trap> { Ok(Entry(job, effect, job.state)) }

  /** state = job_next_state (job) */
  function Advance(config: Config, job: Job): Result<Entry, Trap> {
    var d :- NextState(config, job);
    Ok(Entry(d.job, Nothing, d.target))
  }

  /** The spawning states: start the process of the state to come, then move on. */
  function Spawn(config: Config, job: Job, p: Process, allowed: bool): Result<Entry, Trap> {
    if !allowed then Err(Trap("job_change_state"))
    else
      var started :- StartIfConfigured(config, job, p);
      Advance(config, started)
  }

  /** The states that wait for a process, if the class has one. */
  function Await(config: Config, job: Job, present: bool, allowed: bool): Result<Entry, Trap> {
    if !allowed then Err(Trap("job_change_state"))
    else if present then Stay(job, Nothing)
    else Advance(config, job)
  }

  /** Whether there is a security process to run. */
  predicate Secured(config: Config, luck: Luck) { SecurityProcess in config.processes && luck.apparmor }

  /** The switch of job_change_state: the job enters the target. */
  function Enter(config: Config, old_: Job, target: JobState, luck: Luck): Result<Entry, Trap> {
    var job := old_.(state := target);
    var start, from := job.goal.Start?, old_.state;
    match target
    case Starting =>
      if !(start && (from.Waiting? || from.PostStop?)) then Err(Trap("job_change_state: starting"))
      else
        Stay(job.(env := if job.startEnv.Some? then job.startEnv.value else job.env,
                  startEnv := None, stopEnv := None,
                  failed := false, failedProcess := None, exitStatus := 0), EmitAndBlock)
    case SecuritySpawning =>
      if !(start && from.Starting?) then Err(Trap("job_change_state: security-spawning"))
      else
        var started :- if Secured(config, luck) then StartProcess(job, SecurityProcess) else Ok(job);
        Advance(config, started)
    case Security => Await(config, job, Secured(config, luck), start && from.SecuritySpawning?)
    case PreStarting => Spawn(config, job, PreStartProcess, start && from.Security?)
    case PreStart => Await(config, job, PreStartProcess in config.processes, start && from.PreStarting?)
    case Spawning => Spawn(config, job, MainProcess, start && from.PreStart?)
    case Spawned => Await(config, job, MainProcess in config.processes, start && from.Spawning?)
    case PostStarting => Spawn(config, job, PostStartProcess, start && from.Spawned?)
    case PostStart => Await(config, job, PostStartProcess in config.processes, start && from.PostStarting?)
    case Running =>
      if !(start && (from.PostStart? || from.PreStop?)) then Err(Trap("job_change_state: running"))
      else if from.PreStop? then Stay(job.(stopEnv := None), FinishOnly)
      else Stay(job, if config.task then EmitStarted else EmitStartedAndFinish)
    case PreStopping => Spawn(config, job, PreStopProcess, job.goal.Stop? && from.Running?)
    case PreStop => Await(config, job, PreStopProcess in config.processes, job.goal.Stop? && from.PreStopping?)
    case Stopping =>
      if !(from.Starting? || from.PreStarting? || from.PreStart? || from.Security? || from.Spawned? || from.PostStart?
           || from.Running? || from.PreStop?) then Err(Trap("job_change_state: stopping"))
      else Stay(job, EmitAndBlock)
    case Killed =>
      if !from.Stopping? then Err(Trap("job_change_state: killed"))
      else if MainProcess in config.processes && MainProcess in job.procs then
        var killed :- Kill(job, luck);
        Stay(killed, Nothing)
      else Advance(config, job)
    case PostStopping => Spawn(config, job, PostStopProcess, from.Killed?)
    case PostStop => Await(config, job, PostStopProcess in config.processes, from.PostStopping?)
    case Waiting =>
      if !(job.goal.Stop? && (from.PostStop? || from.Starting?)) then Err(Trap("job_change_state: waiting"))
      else Stay(job, EmitAndFree)
  }

  predicate TowardsSpawned(target: JobState) {
    || target.SecuritySpawning? || target.Security? || target.PreStarting?
    || target.PreStart? || target.Spawning? || target.Spawned?
  }

  lemma EnterRanksUp(config: Config, job: Job, target: JobState, luck: Luck)
    requires TowardsSpawned(target)
    ensures var r := Enter(config, job, target, luck);
            r.Ok? && r.value.next != target ==> Rank(r.value.next) < Rank(target) && r.value.effect.Nothing?
  {
  }

  lemma EnterRanksDown(config: Config, job: Job, target: JobState, luck: Luck)
    requires !TowardsSpawned(target)
    ensures var r := Enter(config, job, target, luck);
            r.Ok? && r.value.next != target ==> Rank(r.value.next) < Rank(target) && r.value.effect.Nothing?
  {
  }

  lemma EnterRanks(config: Config, job: Job, target: JobState, luck: Luck)
    ensures var r := Enter(config, job, target, luck);
            r.Ok? && r.value.next != target ==> Rank(r.value.next) < Rank(target) && r.value.effect.Nothing?
  {
    hide Enter;
    if TowardsSpawned(target) { EnterRanksUp(config, job, target, luck); }
      else { EnterRanksDown(config, job, target, luck); }
  }

  datatype Rest = Rest(job: Job, effect: Effect)

  /** The loop of job_change_state on a job that is not blocked: where it comes to rest, and with what effect. */
  function Settle(config: Config, job: Job, target: JobState, luck: Luck): Result<Rest, Trap>
    decreases Rank(target)
  {
    var e :- Enter(config, job, target, luck);
    EnterRanks(config, job, target, luck);
    if e.next == target then Ok(Rest(e.job, e.effect))
    else Settle(config, e.job, e.next, luck)
  }

  // ---- What holds of a job at rest ----

  /** The state in which a process other than the main one lives. */
  function HomeOf(p: Process): JobState {
    match p
    case MainProcess => Running
    case PreStartProcess => PreStart
    case PostStartProcess => PostStart
    case PreStopProcess => PreStop
    case PostStopProcess => PostStop
    case SecurityProcess => Security
  }

  predicate MayHaveMain(state: JobState) {
    state.Spawned? || state.PostStart? || state.Running? || state.PreStop? || state.Stopping? || state.Killed?
  }

  predicate IsSpawningState(state: JobState) {
    || state.SecuritySpawning? || state.PreStarting? || state.Spawning?
    || state.PostStarting? || state.PreStopping? || state.PostStopping?
  }

  /** Live pids agree with the state. */
  predicate ProcessesAgree(job: Job) {
    && (forall p :: p in job.procs && p != MainProcess ==> job.state == HomeOf(p))
    && (MainProcess in job.procs ==> MayHaveMain(job.state))
    && (MainProcess in job.setup ==> job.state.Spawned?)
    && (job.killTimer ==> job.state.Killed? && MainProcess in job.procs)
  }

  /** A job that waits for a process has one to wait for, except after its security process could not be set up. */
  predicate ProcessAwaited(job: Job) {
    && (job.state.Security? && SecurityProcess !in job.procs ==>
         job.failed && job.failedProcess == Some(SecurityProcess))
    && (job.state.PreStart? ==> PreStartProcess in job.procs)
    && (job.state.Spawned? || job.state.Killed? ==> MainProcess in job.procs)
    && (job.state.PostStart? ==> PostStartProcess in job.procs)
    && (job.state.PreStop? ==> PreStopProcess in job.procs)
    && (job.state.PostStop? ==> PostStopProcess in job.procs)
  }

  predicate GoalAgrees(job: Job) {
    && (job.goal.Respawning? ==> (job.state.PostStart? || job.state.PreStop?) && MainProcess !in job.procs)
    && (job.state.Running? ==> job.goal.Start?)
    && (job.state.Waiting? ==> job.goal.Stop? && job.procs == {})
    && (job.state.Starting? || (job.state.Security? && SecurityProcess in job.procs) ==> !job.failed)
  }

  predicate Blocked(state: JobState) { state.Starting? || state.Stopping? }

  /** Everything that holds of a job between two steps of the program, except that its blocker is its state's. */
  predicate Steady(config: Config, job: Job) {
    && job.setup <= job.procs <= config.processes
    && !IsSpawningState(job.state)
    && ProcessesAgree(job) && ProcessAwaited(job) && GoalAgrees(job)
  }

  predicate JobOk(config: Config, job: Job) {
    Steady(config, job) && (job.blocker.Some? <==> Blocked(job.state))
  }

  // ---- What holds of a job about to enter a state ----

  predicate Exactly(procs: set<Process>, p: Process, present: bool) { procs == if present then {p} else {} }

  predicate Moving(config: Config, job: Job, target: JobState, luck: Luck) {
    var from, procs := job.state, job.procs;
    && job.blocker.None? && !job.killTimer && !job.goal.Respawning?
    && job.setup <= procs <= config.processes
    && match target
       case Starting => job.goal.Start? && (from.Waiting? || from.PostStop?) && procs == {}
       case SecuritySpawning => job.goal.Start? && from.Starting? && procs == {} && !job.failed
       case Security =>
         job.goal.Start? && from.SecuritySpawning? && !job.failed
           && Exactly(procs, SecurityProcess, Secured(config, luck))
       case PreStarting => job.goal.Start? && from.Security? && procs == {}
       case PreStart =>
         job.goal.Start? && from.PreStarting? && Exactly(procs, PreStartProcess, PreStartProcess in config.processes)
       case Spawning => job.goal.Start? && from.PreStart? && procs == {}
       case Spawned => job.goal.Start? && from.Spawning? && Exactly(procs, MainProcess, MainProcess in config.processes)
       case PostStarting => job.goal.Start? && from.Spawned? && procs <= {MainProcess} && job.setup == {}
       case PostStart =>
         && job.goal.Start? && from.PostStarting? && procs <= {MainProcess, PostStartProcess}
         && (PostStartProcess in procs <==> PostStartProcess in config.processes) && MainProcess !in job.setup
       case Running => job.goal.Start? && (from.PostStart? || from.PreStop?) && procs <= {MainProcess}
         && job.setup == {}
       case PreStopping => job.goal.Stop? && from.Running? && procs == {MainProcess} && job.setup == {}
       case PreStop =>
         && job.goal.Stop? && from.PreStopping? && procs <= {MainProcess, PreStopProcess}
         && (PreStopProcess in procs <==> PreStopProcess in config.processes) && MainProcess !in job.setup
       case Stopping =>
         && (from.Starting? || from.PreStart? || from.Security? || from.Spawned? || from.PostStart? || from.Running?
         || from.PreStop?)
         && procs <= {MainProcess} && job.setup == {}
       case Killed => from.Stopping? && procs <= {MainProcess} && job.setup == {}
       case PostStopping => from.Killed? && procs == {}
       case PostStop => from.PostStopping? && Exactly(procs, PostStopProcess, PostStopProcess in config.processes)
       case Waiting => job.goal.Stop? && from.PostStop? && procs == {}
  }

  /** The fields a transition leaves alone. */
  predicate SameLinks(a: Job, b: Job) {
    && a.live == b.live && a.cls == b.cls && a.name == b.name
    && a.stopOn == b.stopOn && a.blocking == b.blocking && a.blocker == b.blocker
  }

  /** The job rests after this effect. */
  predicate Settles(config: Config, r: Rest) {
    && Steady(config, r.job)
    && (r.effect.EmitAndBlock? <==> Blocked(r.job.state))
    && (r.effect.EmitAndFree? <==> r.job.state.Waiting?)
    && (r.effect.EmitStarted? || r.effect.EmitStartedAndFinish? ==> r.job.state.Running?)
  }

  /** The turn fails no assertion, and ends at rest or about to enter the next state. */
  ghost predicate TurnOk(config: Config, job: Job, target: JobState, luck: Luck) {
    var r := Enter(config, job, target, luck);
    && r.Ok?
    && SameLinks(job, r.value.job)
    && if r.value.next == target then Settles(config, Rest(r.value.job, r.value.effect))
       else Moving(config, r.value.job, r.value.next, luck)
  }

  lemma EnterSecurity(config: Config, job: Job, target: JobState, luck: Luck)
    requires Moving(config, job, target, luck) && (target.SecuritySpawning? || target.Security?)
    ensures TurnOk(config, job, target, luck)
  {
  }

  lemma EnterPreStart(config: Config, job: Job, target: JobState, luck: Luck)
    requires Moving(config, job, target, luck) && (target.PreStarting? || target.PreStart?)
    ensures TurnOk(config, job, target, luck)
  {
  }

  lemma EnterSpawned(config: Config, job: Job, target: JobState, luck: Luck)
    requires Moving(config, job, target, luck) && (target.Spawning? || target.Spawned?)
    ensures TurnOk(config, job, target, luck)
  {
  }

  lemma EnterPostStarting(config: Config, job: Job, target: JobState, luck: Luck)
    requires Moving(config, job, target, luck) && target.PostStarting?
    ensures TurnOk(config, job, target, luck)
  {
    hide Settles, Kill, Await;
  }

  lemma EnterPostStartState(config: Config, job: Job, target: JobState, luck: Luck)
    requires Moving(config, job, target, luck) && target.PostStart?
    ensures TurnOk(config, job, target, luck)
  {
  }

  lemma EnterPreStopping(config: Config, job: Job, target: JobState, luck: Luck)
    requires Moving(config, job, target, luck) && target.PreStopping?
    ensures TurnOk(config, job, target, luck)
  {
    hide Settles, Kill, Await;
  }

  lemma EnterPreStopState(config: Config, job: Job, target: JobState, luck: Luck)
    requires Moving(config, job, target, luck) && target.PreStop?
    ensures TurnOk(config, job, target, luck)
  {
  }

  lemma EnterPostStopping(config: Config, job: Job, target: JobState, luck: Luck)
    requires Moving(config, job, target, luck) && target.PostStopping?
    ensures TurnOk(config, job, target, luck)
  {
    hide Settles, Kill, Await;
  }

  lemma EnterPostStopState(config: Config, job: Job, target: JobState, luck: Luck)
    requires Moving(config, job, target, luck) && target.PostStop?
    ensures TurnOk(config, job, target, luck)
  {
  }

  lemma EnterKilled(config: Config, job: Job, target: JobState, luck: Luck)
    requires Moving(config, job, target, luck) && target.Killed?
    ensures TurnOk(config, job, target, luck)
  {
    hide Spawn, Await, StartProcess;
  }

  lemma EnterRunningOrStopping(config: Config, job: Job, target: JobState, luck: Luck)
    requires Moving(config, job, target, luck) && (target.Running? || target.Stopping?)
    ensures TurnOk(config, job, target, luck)
  {
  }

  lemma EnterStartingOrWaiting(config: Config, job: Job, target: JobState, luck: Luck)
    requires Moving(config, job, target, luck) && (target.Starting? || target.Waiting?)
    ensures TurnOk(config, job, target, luck)
  {
  }

  /** One turn of the loop of job_change_state. */
  lemma EnterMoves(config: Config, job: Job, target: JobState, luck: Luck)
    requires Moving(config, job, target, luck)
    ensures TurnOk(config, job, target, luck)
  {
    hide TurnOk, Moving;
    match target
    case SecuritySpawning | Security => EnterSecurity(config, job, target, luck);
    case PreStarting | PreStart => EnterPreStart(config, job, target, luck);
    case Spawning | Spawned => EnterSpawned(config, job, target, luck);
    case PostStarting => EnterPostStarting(config, job, target, luck);
    case PostStart => EnterPostStartState(config, job, target, luck);
    case PreStopping => EnterPreStopping(config, job, target, luck);
    case PreStop => EnterPreStopState(config, job, target, luck);
    case PostStopping => EnterPostStopping(config, job, target, luck);
    case PostStop => EnterPostStopState(config, job, target, luck);
    case Killed => EnterKilled(config, job, target, luck);
    case Running | Stopping => EnterRunningOrStopping(config, job, target, luck);
    case Starting | Waiting => EnterStartingOrWaiting(config, job, target, luck);
  }

  /**
   The loop of job_change_state ends with the job freed, blocked on its starting
   or stopping event, running, or in a state whose process it has just started
   or signalled.
   */
  lemma {:induction false} SettleSettles(config: Config, job: Job, target: JobState, luck: Luck)
    requires Moving(config, job, target, luck)
    ensures Settle(config, job, target, luck).Ok?
    ensures var r := Settle(config, job, target, luck).value;
            SameLinks(job, r.job) && Settles(config, r)
    decreases Rank(target)
  {
    hide Enter, Settles, Moving, SameLinks;
    EnterMoves(config, job, target, luck);
    EnterRanks(config, job, target, luck);
    var e := Enter(config, job, target, luck).value;
    if e.next != target {
      SettleSettles(config, e.job, e.next, luck);
      LinksChain(job, e.job, Settle(config, e.job, e.next, luck).value.job);
    }
  }

  lemma LinksChain(a: Job, b: Job, c: Job)
    requires SameLinks(a, b) && SameLinks(b, c)
    ensures SameLinks(a, c)
  {
  }

  // ---- Where the loop ends, read off the class ----

  /** The first state on the way whose process the class has; running, blocked or freed if there is none. */
  function Destination(config: Config, start: bool, mainAlive: bool, target: JobState, luck: Luck): JobState
    decreases Rank(target)
  {
    match target
    case SecuritySpawning => Destination(config, start, mainAlive, Security, luck)
    case Security => if Secured(config, luck) then Security
      else Destination(config, start, mainAlive, PreStarting, luck)
    case PreStarting => Destination(config, start, mainAlive, PreStart, luck)
    case PreStart =>
      if PreStartProcess in config.processes then PreStart else Destination(config, start, mainAlive, Spawning, luck)
    case Spawning => Destination(config, start, mainAlive, Spawned, luck)
    case Spawned =>
      if MainProcess in config.processes then Spawned else Destination(config, start, mainAlive, PostStarting, luck)
    case PostStarting => Destination(config, start, mainAlive, PostStart, luck)
    case PostStart => if PostStartProcess in config.processes then PostStart else Running
    case PreStopping => Destination(config, start, mainAlive, PreStop, luck)
    case PreStop => if PreStopProcess in config.processes then PreStop else Stopping
    case Killed => if mainAlive then Killed else Destination(config, start, mainAlive, PostStopping, luck)
    case PostStopping => Destination(config, start, mainAlive, PostStop, luck)
    case PostStop => if PostStopProcess in config.processes then PostStop else if start then Starting else Waiting
    case Running => Running
    case Stopping => Stopping
    case Starting => Starting
    case Waiting => Waiting
  }

  /** The process that runs in a state, started on the way into it. */
  function Inhabitants(state: JobState): set<Process> {
    match state
    case Security => {SecurityProcess}
    case PreStart => {PreStartProcess}
    case Spawned => {MainProcess}
    case PostStart => {PostStartProcess}
    case PreStop => {PreStopProcess}
    case PostStop => {PostStopProcess}
    case _ => {}
  }

  /** The next stop of the loop after the target, or the target itself. */
  function Onward(config: Config, start: bool, mainAlive: bool, target: JobState, luck: Luck): JobState {
    match target
    case SecuritySpawning => Security
    case Security => if Secured(config, luck) then Security else PreStarting
    case PreStarting => PreStart
    case PreStart => if PreStartProcess in config.processes then PreStart else Spawning
    case Spawning => Spawned
    case Spawned => if MainProcess in config.processes then Spawned else PostStarting
    case PostStarting => PostStart
    case PostStart => if PostStartProcess in config.processes then PostStart else Running
    case PreStopping => PreStop
    case PreStop => if PreStopProcess in config.processes then PreStop else Stopping
    case Killed => if mainAlive then Killed else PostStopping
    case PostStopping => PostStop
    case PostStop => if PostStopProcess in config.processes then PostStop else if start then Starting else Waiting
    case _ => target
  }

  lemma OnwardDestination(config: Config, start: bool, mainAlive: bool, target: JobState, luck: Luck)
    ensures var n := Onward(config, start, mainAlive, target, luck);
            Destination(config, start, mainAlive, target, luck) ==
            if n == target then target else Destination(config, start, mainAlive, n, luck)
    ensures Onward(config, start, mainAlive, target, luck).Killed? ==> target.Killed?
  {
  }

  lemma EnterOnTheWayUp(config: Config, job: Job, mainAlive: bool, target: JobState, luck: Luck)
    requires Moving(config, job, target, luck) && Enter(config, job, target, luck).Ok?
    requires TowardsSpawned(target)
    requires target.Killed? ==> mainAlive == (MainProcess in job.procs)
    ensures var e := Enter(config, job, target, luck).value;
            && e.job.goal == job.goal && e.job.state == target
            && e.next == Onward(config, job.goal.Start?, mainAlive, target, luck)
  {
    hide Settles;
  }

  lemma EnterOnTheWayDown(config: Config, job: Job, mainAlive: bool, target: JobState, luck: Luck)
    requires Moving(config, job, target, luck) && Enter(config, job, target, luck).Ok?
    requires !TowardsSpawned(target)
    requires target.Killed? ==> mainAlive == (MainProcess in job.procs)
    ensures var e := Enter(config, job, target, luck).value;
            && e.job.goal == job.goal && e.job.state == target
            && e.next == Onward(config, job.goal.Start?, mainAlive, target, luck)
  {
    hide Settles;
  }

  lemma EnterOnTheWay(config: Config, job: Job, mainAlive: bool, target: JobState, luck: Luck)
    requires Moving(config, job, target, luck) && Enter(config, job, target, luck).Ok?
    requires target.Killed? ==> mainAlive == (MainProcess in job.procs)
    ensures var e := Enter(config, job, target, luck).value;
            && e.job.goal == job.goal && e.job.state == target
            && e.next == Onward(config, job.goal.Start?, mainAlive, target, luck)
  {
    hide Enter, Moving, Onward;
    if TowardsSpawned(target) {
      EnterOnTheWayUp(config, job, mainAlive, target, luck);
    } else {
      EnterOnTheWayDown(config, job, mainAlive, target, luck);
    }
  }

  /** Entering a state starts at most one process: that of the next state, where the loop will rest. */
  lemma EnterStartsProcess(config: Config, job: Job, mainAlive: bool, target: JobState, luck: Luck)
    requires Moving(config, job, target, luck) && Enter(config, job, target, luck).Ok?
    ensures var e := Enter(config, job, target, luck).value;
            if e.next == target then e.job.procs == job.procs == job.procs + Inhabitants(target)
            else
              || e.job.procs == job.procs
              || (&& e.job.procs == job.procs + Inhabitants(e.next)
                  && Onward(config, job.goal.Start?, mainAlive, e.next, luck) == e.next)
  {
    hide Settles;
  }

  /** The loop comes to rest exactly there, having started exactly the process of that state. */
  lemma {:induction false} SettleDestination(config: Config, job: Job, mainAlive: bool, target: JobState, luck: Luck)
    requires Moving(config, job, target, luck) && Settle(config, job, target, luck).Ok?
    requires target.Killed? ==> mainAlive == (MainProcess in job.procs)
    ensures var r := Settle(config, job, target, luck).value;
            var d := Destination(config, job.goal.Start?, mainAlive, target, luck);
            r.job.state == d && r.job.goal == job.goal && r.job.procs == job.procs + Inhabitants(d)
    decreases Rank(target)
  {
    hide Enter, Moving, Destination, Onward;
    EnterMoves(config, job, target, luck);
    EnterRanks(config, job, target, luck);
    EnterOnTheWay(config, job, mainAlive, target, luck);
    OnwardDestination(config, job.goal.Start?, mainAlive, target, luck);
    EnterStartsProcess(config, job, mainAlive, target, luck);
    var e := Enter(config, job, target, luck).value;
    OnwardDestination(config, job.goal.Start?, mainAlive, e.next, luck);
    if e.next != target {
      SettleDestination(config, e.job, mainAlive, e.next, luck);
    }
  }

  /** What the state the loop rests in does outside the job. */
  function Consequence(config: Config, state: JobState, fromPreStop: bool): Effect {
    match state
    case Starting => EmitAndBlock
    case Stopping => EmitAndBlock
    case Waiting => EmitAndFree
    case Running => if fromPreStop then FinishOnly else if config.task then EmitStarted else EmitStartedAndFinish
    case _ => Nothing
  }

  lemma EnterEffect(config: Config, job: Job, target: JobState, luck: Luck)
    requires Enter(config, job, target, luck).Ok?
    ensures var e := Enter(config, job, target, luck).value;
            e.job.state == target && (e.next == target ==> e.effect == Consequence(config, target, job.state.PreStop?))
  {
  }

  /** The loop has the consequence of the state it rests in, and of no other. */
  lemma {:induction false} SettleEffect(config: Config, job: Job, target: JobState, luck: Luck)
    requires Moving(config, job, target, luck) && Settle(config, job, target, luck).Ok?
    ensures var r := Settle(config, job, target, luck).value;
            r.effect == Consequence(config, r.job.state, target.Running? && job.state.PreStop?)
    decreases Rank(target)
  {
    hide Enter, Moving;
    EnterMoves(config, job, target, luck);
    EnterRanks(config, job, target, luck);
    EnterEffect(config, job, target, luck);
    var e := Enter(config, job, target, luck).value;
    if e.next != target {
      SettleEffect(config, e.job, e.next, luck);
      PreStopStops(config, job, target, luck);
    }
  }

  /** A job in the pre-stop state on its way through is not on its way to running. */
  lemma PreStopStops(config: Config, job: Job, target: JobState, luck: Luck)
    requires Moving(config, job, target, luck) && Enter(config, job, target, luck).Ok?
    requires Enter(config, job, target, luck).value.next != target
    ensures target.PreStop? ==> !Enter(config, job, target, luck).value.next.Running?
  {
  }

  // ---- The death of a process ----

  /** What job_process_terminated has decided before it touches anything but the respawn window. */
  datatype Verdict = Verdict(job: Job, failed: bool, stop: bool, advance: bool, runaway: bool, respawning: bool)

  /** The exit status counts as a failure of the main process. */
  predicate Fails(config: Config, status: int) {
    (!(config.normalExit == [] && status == 0) || (config.respawn && !config.task)) && status !in config.normalExit
  }

  /** The main process died; a script that is still running decides when the job moves. */
  function MainDeath(config: Config, job: Job, status: int, now: int, disabled: bool): Result<Verdict, Trap> {
    var scripted :=
      || (job.state.PostStart? && PostStartProcess in config.processes && PostStartProcess in job.procs)
      || (job.state.PreStop? && PreStopProcess in config.processes && PreStopProcess in job.procs);
    if !MayHaveMain(job.state) then Err(Trap("job_process_terminated: main"))
    else if job.state.Killed? then Ok(Verdict(job, false, false, !scripted, false, false))
    else if job.state.Stopping? then Ok(Verdict(job, false, false, false, false, false))
    else if !job.goal.Start? then Ok(Verdict(job, false, false, !scripted, false, false))
    else if !Fails(config, status) || !config.respawn || disabled then
      Ok(Verdict(job, Fails(config, status), true, !scripted, false, false))
    else
      var counted := job.(window := Next(config.limit, job.window, now));
      if Runaway(config.limit, job.window, now) then Ok(Verdict(counted, false, true, !scripted, true, false))
      else Ok(Verdict(counted, false, false, !scripted && !job.state.Spawned?, false, true))
  }

  function Death(config: Config, job: Job, p: Process, status: int, now: int, disabled: bool): Result<Verdict, Trap> {
    var plain := Verdict(job, false, false, true, false, false);
    var checked := Verdict(job, status != 0, status != 0, true, false, false);
    match p
    case MainProcess => MainDeath(config, job, status, now, disabled)
    case SecurityProcess => if job.state.Security? then Ok(checked) else Err(Trap("job_process_terminated: security"))
    case PreStartProcess => if job.state.PreStart? then Ok(checked) else Err(Trap("job_process_terminated: pre-start"))
    case PostStartProcess =>
      if job.state.PostStart? || job.state.Running? then Ok(plain) else Err(Trap("job_process_terminated: post-start"))
    case PreStopProcess => if job.state.PreStop? then Ok(plain) else Err(Trap("job_process_terminated: pre-stop"))
    case PostStopProcess => if job.state.PostStop? then Ok(checked) else Err(Trap("job_process_terminated: post-stop"))
  }
}

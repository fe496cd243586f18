/** Three things one would expect of the supervisor that do not hold, and exactly when they fail. */
module Shortfalls {
  import opened Wrappers
  import opened JobMachine
  import opened JobReactions
  import opened Supervisor
  import opened SupervisorSteps
  import opened Invariant
  import opened Transitions
  import opened ProcessSteps
  import opened CommandSteps
  import opened OfferSteps
  import opened EventSteps
  import opened ConfigSteps
  import opened StartProgress
  import opened SupervisorRuns
  import opened Guarantees
  import opened Reach
  import Witness
  import MissedEvent

  // ---- A job in a state that waits for a process has that process, except in one ----

  /** The process whose end takes a job out of the state, if there is one. */
  function Awaited(state: JobState): Option<Process> {
    match state
    case Security => Some(SecurityProcess)
    case PreStart => Some(PreStartProcess)
    case Spawned => Some(MainProcess)
    case PostStart => Some(PostStartProcess)
    case PreStop => Some(PreStopProcess)
    case Killed => Some(MainProcess)
    case PostStop => Some(PostStopProcess)
    case _ => None
  }

  /** The awaited process is missing exactly for a failed job in the security state. */
  lemma AwaitedProcessMissing(inputs: seq<Input>, w: World, j: JobId)
    requires LiveJob(Final(inputs, w), j) && Awaited(Final(inputs, w).jobs[j].state).Some?
    ensures var job := Final(inputs, w).jobs[j];
            Awaited(job.state).value !in job.procs <==> job.state.Security? && job.failed
  {
    hide Final, Base, Current, Trusty, Chronicle, NoneFinished, NoneWaiting;
    FinalSafe(inputs, w);
    assert JobAtRest(Final(inputs, w), j);
  }

  /** The job is in the security state and has no process. */
  ghost predicate Parked(s: Sys, j: JobId) {
    LiveJob(s, j) && s.jobs[j].state.Security? && s.jobs[j].procs == {} && s.jobs[j].setup == {}
  }

  /** A security process that cannot be set up leaves its job parked. */
  lemma SecuritySetupParks(inputs: seq<Input>, w: World, j: JobId, luck: Oracle)
    requires LiveJob(Final(inputs, w), j) && SecurityProcess in Final(inputs, w).jobs[j].setup
    ensures Parked(Final(inputs + [SetupFailed(j, SecurityProcess, luck)], w), j)
  {
    hide Final, Base, Current, Trusty, Chronicle, NoneFinished, NoneWaiting, ChildError;
    FinalSafe(inputs, w);
    var s := Final(inputs, w);
    SecurityFails(s, j, w, luck);
    OneMoreInput(inputs, SetupFailed(j, SecurityProcess, luck), w);
    var r := Final(inputs + [SetupFailed(j, SecurityProcess, luck)], w);
    assert JobAtRest(r, j);
  }

  lemma FollowsParked(s: Sys, r: Sys, j: JobId)
    requires Follows(s, r) && Parked(s, j)
    ensures Parked(r, j)
  {
  }

  lemma GoodParked(s: Sys, r: Result<Sys, Trap>, k: JobId, j: JobId)
    requires Good(s, r, k) && Parked(s, j) && k != j
    ensures r.Ok? && Parked(r.value, j)
  {
  }

  lemma RewiredParked(s: Sys, r: Sys, j: JobId)
    requires Rewired(s, r) && Parked(s, j)
    ensures Parked(r, j)
  {
  }

  /** Nothing can be reported of the processes of a parked job. */
  lemma NothingReported(s: Sys, input: Input, j: JobId)
    requires Inv(s) && Parked(s, j) && Possible(s, input)
    requires input.SetupSucceeded? || input.SetupFailed? || input.MainReady? || input.Died? || input.KillTimerFired?
    ensures input.j != j
  {
    hide Base;
    assert JobAtRest(s, j);
  }

  lemma ReportParked(s: Sys, input: Input, w: World, j: JobId)
    requires Inv(s) && Parked(s, j) && Possible(s, input)
    requires input.SetupSucceeded? || input.SetupFailed? || input.MainReady? || input.Died? || input.KillTimerFired?
    ensures Step(s, input, w).Ok? && Parked(Step(s, input, w).value, j)
  {
    hide Inv, Good, Ready, Parked, ChildReady, ChildError, AdvanceJob, Terminated, KillTimer;
    NothingReported(s, input, j);
    match input
    case SetupSucceeded(k, p, luck) =>
      ChildReadyKeeps(s, k, p, w, luck);
      GoodParked(s, ChildReady(s, k, p, w, luck), k, j);
    case SetupFailed(k, p, luck) =>
      ChildErrorKeeps(s, k, p, w, luck);
      GoodParked(s, ChildError(s, k, p, w, luck), k, j);
    case MainReady(k, luck) =>
      ReadyAtRest(s, k);
      LiveReady(s, k);
      MainReadyKeeps(s, k, w, luck);
      GoodParked(s, AdvanceJob(s, k, w, luck), k, j);
    case Died(k, p, status, now, disabled, luck) =>
      TerminatedKeeps(s, k, p, status, now, disabled, w, luck);
      GoodParked(s, Terminated(s, k, p, status, now, disabled, w, luck), k, j);
    case KillTimerFired(k) =>
      KillTimerKeeps(s, k);
      GoodParked(s, KillTimer(s, k), k, j);
  }

  lemma CommandParked(s: Sys, input: Input, w: World, j: JobId)
    requires Inv(s) && Parked(s, j) && Possible(s, input)
    requires input.StartCommand? || input.StopCommand? || input.RestartCommand? || input.StartClassCommand?
    ensures Step(s, input, w).Ok? && Parked(Step(s, input, w).value, j)
  {
    hide Inv, Follows, Parked, StartInstance, StopInstance, RestartInstance, StartFromClass;
    match input
    case StartCommand(k, luck) =>
      StartFollows(s, k, None, w, luck);
      FollowsParked(s, StartInstance(s, k, None, w, luck).value, j);
    case StopCommand(k, luck) =>
      StopFollows(s, k, w, luck);
      FollowsParked(s, StopInstance(s, k, w, luck).value, j);
    case RestartCommand(k, luck) =>
      RestartFollows(s, k, w, luck);
      FollowsParked(s, RestartInstance(s, k, w, luck).value, j);
    case StartClassCommand(c, env, luck) =>
      StartFromClassFollows(s, c, env, w, luck);
      FollowsParked(s, StartFromClass(s, c, env, w, luck).value, j);
  }

  lemma OtherParked(s: Sys, input: Input, w: World, j: JobId)
    requires Between(s) && Parked(s, j) && Possible(s, input)
    requires input.Emit? || input.PollEvents? || input.FileAppeared? || input.FileChanged? || input.FileVanished?
             || input.ClassesReordered? || input.InstancesReordered?
    ensures Step(s, input, w).Ok? && Parked(Step(s, input, w).value, j)
  {
    hide Inv, Chronicle, NoneFinished, NoneWaiting, Rewired, Poll, LoadFile, ReloadFile, RemoveFile;
    match input
    case Emit(what) =>
    case PollEvents(turns, luck) =>
      PollKeeps(s, 0, false, turns, w, luck);
    case FileAppeared(at, config, startOn) =>
      LoadFileKeeps(s, at, config, startOn, w);
      RewiredParked(s, LoadFile(s, at, config, startOn, w).value, j);
    case FileChanged(c, config, startOn) =>
      ReloadFileKeeps(s, c, config, startOn, w);
      RewiredParked(s, ReloadFile(s, c, config, startOn, w).value, j);
    case FileVanished(c) =>
      RemoveFileKeeps(s, c);
      RewiredParked(s, RemoveFile(s, c).value, j);
    case ClassesReordered(_) =>
    case InstancesReordered(_, _) =>
  }

  /** Nothing that can happen gets a parked job out of the security state, not even the command to stop it. */
  lemma {:induction false} ParkedForever(before: seq<Input>, after: seq<Input>, w: World, j: JobId)
    requires Parked(Final(before, w), j)
    ensures Parked(Final(before + after, w), j)
    decreases |after|
  {
    hide Final, Inv, Current, Trusty, Chronicle, NoneFinished, NoneWaiting, Parked, Step, Possible;
    if after == [] {
      assert before + after == before;
    } else {
      var init, last := after[..|after| - 1], after[|after| - 1];
      assert before + after == before + init + [last];
      ParkedForever(before, init, w, j);
      OneMoreInput(before + init, last, w);
      StepParked(Final(before + init, w), last, w, j);
    }
  }

  lemma StepParked(s: Sys, input: Input, w: World, j: JobId)
    requires Safe(s, w) && Parked(s, j)
    ensures Step(s, input, w).Ok? && Parked(Step(s, input, w).value, j)
  {
    hide Inv, Current, Trusty, Chronicle, NoneFinished, NoneWaiting, Parked, Step, Possible;
    if !Possible(s, input) {
      NothingDone(s, input, w);
    } else if input.StartCommand? || input.StopCommand? || input.RestartCommand? || input.StartClassCommand? {
      CommandParked(s, input, w, j);
    } else if input.SetupSucceeded? || input.SetupFailed? || input.MainReady? || input.Died? || input.KillTimerFired? {
      ReportParked(s, input, w, j);
    } else {
      OtherParked(s, input, w, j);
    }
  }

  // ---- A running job has its main process, except after one command ----

  /** The job is running, its class has a main process, and the job has none. */
  ghost predicate Hollow(s: Sys, j: JobId) {
    && LiveJob(s, j) && LiveClass(s, s.jobs[j].cls) && s.jobs[j].state.Running?
    && MainProcess in s.classes[s.jobs[j].cls].config.processes && MainProcess !in s.jobs[j].procs
  }

  /** A post-start or pre-stop script of the job has ended, or could not be set up. */
  predicate ScriptEnds(input: Input, j: JobId) {
    && (input.Died? || input.SetupFailed?) && input.j == j && (input.p.PostStartProcess? || input.p.PreStopProcess?)
  }

  /** The script ends while the job is to start and its main process is gone. */
  ghost predicate Hollows(s: Sys, input: Input, j: JobId) {
    && Possible(s, input) && ScriptEnds(input, j)
    && LiveJob(s, j) && LiveClass(s, s.jobs[j].cls) && s.jobs[j].goal.Start?
    && MainProcess in s.classes[s.jobs[j].cls].config.processes && MainProcess !in s.jobs[j].procs
  }

  predicate Runs(s: Sys, j: JobId) { LiveJob(s, j) && s.jobs[j].state.Running? }

  /**
   After a step a job runs without its main process exactly when such a script has just
   ended, or it did before and still runs.
   */
  ghost predicate HollowRight(s: Sys, input: Input, r: Sys, j: JobId) {
    Hollow(r, j) <==> Hollows(s, input, j) || (Hollow(s, j) && Runs(r, j))
  }

  /** The job is the same, or runs only as it did. */
  lemma HollowSame(s: Sys, input: Input, r: Sys, j: JobId)
    requires Inv(s) && Inv(r) && !ScriptEnds(input, j) && |s.classes| <= |r.classes|
    requires forall c :: 0 <= c < |s.classes| ==> r.classes[c].config == s.classes[c].config
    requires NoneRunsAnew(s, r) || (j < |s.jobs| && j < |r.jobs| && r.jobs[j] == s.jobs[j])
             || (j >= |r.jobs| && j >= |s.jobs|)
    ensures HollowRight(s, input, r, j)
  {
    hide Base;
    if LiveJob(r, j) { assert JobAtRest(r, j); }
    if LiveJob(s, j) { assert JobAtRest(s, j); }
  }

  lemma HollowReport(s: Sys, input: Input, w: World, j: JobId)
    requires input.SetupSucceeded? || input.SetupFailed? || input.MainReady? || input.Died? || input.KillTimerFired?
    requires Inv(s) && Possible(s, input) && input.j == j
    ensures Step(s, input, w).Ok? && HollowRight(s, input, Step(s, input, w).value, j)
  {
    hide Base, Good, Ready, Touches, ChildReady, ChildError, AdvanceJob, Terminated;
    assert JobAtRest(s, j);
    if Hollow(s, j) { NothingToReport(s, j); }
    match input
    case SetupSucceeded(_, p, luck) =>
      ChildReadyKeeps(s, j, p, w, luck);
      GoodRests(s, ChildReady(s, j, p, w, luck), j);
    case SetupFailed(_, p, luck) =>
      ChildErrorKeeps(s, j, p, w, luck);
      EndedRight(s, input, j, p, ChildError(s, j, p, w, luck));
    case MainReady(_, luck) =>
      ReadyAtRest(s, j);
      MainReadyKeeps(s, j, w, luck);
      GoodRests(s, AdvanceJob(s, j, w, luck), j);
    case Died(_, p, status, now, disabled, luck) =>
      TerminatedKeeps(s, j, p, status, now, disabled, w, luck);
      EndedRight(s, input, j, p, Terminated(s, j, p, status, now, disabled, w, luck));
    case KillTimerFired(_) =>
  }

  /** A job that runs without its main process has no process at all. */
  lemma NothingToReport(s: Sys, j: JobId)
    requires Inv(s) && Hollow(s, j)
    ensures s.jobs[j].procs == {} && s.jobs[j].setup == {} && !s.jobs[j].killTimer
  {
    hide Base;
    assert JobAtRest(s, j);
    MainOrNothing(s.classes[s.jobs[j].cls].config, s.jobs[j]);
  }

  lemma EndedRight(s: Sys, input: Input, j: JobId, p: Process, r: Result<Sys, Trap>)
    requires Inv(s) && LiveJob(s, j) && p in s.jobs[j].procs && Ends(s, j, p, r) && Good(s, r, j)
    requires (input.Died? || input.SetupFailed?) && input.j == j && input.p == p && Possible(s, input)
    ensures HollowRight(s, input, r.value, j)
  {
    hide Base;
    assert JobAtRest(s, j);
    assert JobAtRest(r.value, j);
  }

  lemma HollowElsewhere(s: Sys, input: Input, w: World, j: JobId)
    requires input.SetupSucceeded? || input.SetupFailed? || input.MainReady? || input.Died? || input.KillTimerFired?
    requires Inv(s) && Possible(s, input) && input.j != j
    ensures Step(s, input, w).Ok? && HollowRight(s, input, Step(s, input, w).value, j)
  {
    hide Inv, Good, Ends, RunsAfter, Ready, ChildReady, ChildError, AdvanceJob, Terminated, KillTimer, HollowRight;
    match input
    case SetupSucceeded(k, p, luck) =>
      ChildReadyKeeps(s, k, p, w, luck);
      OtherHollow(s, input, ChildReady(s, k, p, w, luck), k, j);
    case SetupFailed(k, p, luck) =>
      ChildErrorKeeps(s, k, p, w, luck);
      OtherHollow(s, input, ChildError(s, k, p, w, luck), k, j);
    case MainReady(k, luck) =>
      ReadyAtRest(s, k);
      LiveReady(s, k);
      MainReadyKeeps(s, k, w, luck);
      OtherHollow(s, input, AdvanceJob(s, k, w, luck), k, j);
    case Died(k, p, status, now, disabled, luck) =>
      TerminatedKeeps(s, k, p, status, now, disabled, w, luck);
      OtherHollow(s, input, Terminated(s, k, p, status, now, disabled, w, luck), k, j);
    case KillTimerFired(k) =>
      KillTimerKeeps(s, k);
      OtherHollow(s, input, KillTimer(s, k), k, j);
  }

  lemma OtherHollow(s: Sys, input: Input, r: Result<Sys, Trap>, k: JobId, j: JobId)
    requires Inv(s) && Good(s, r, k) && k != j && !ScriptEnds(input, j)
    ensures r.Ok? && HollowRight(s, input, r.value, j)
  {
    hide Inv, HollowRight;
    HollowSame(s, input, r.value, j);
  }

  lemma HollowCommand(s: Sys, input: Input, w: World, j: JobId)
    requires Inv(s) && Possible(s, input) && Step(s, input, w).Ok? && Inv(Step(s, input, w).value)
    requires input.StartCommand? || input.StopCommand? || input.RestartCommand? || input.StartClassCommand?
    ensures HollowRight(s, input, Step(s, input, w).value, j)
  {
    hide Inv, Follows, HollowRight, StartInstance, StopInstance, RestartInstance, StartFromClass;
    match input
    case StartCommand(k, luck) =>
      StartFollows(s, k, None, w, luck);
      FollowsHollow(s, input, StartInstance(s, k, None, w, luck).value, j);
    case StopCommand(k, luck) =>
      StopFollows(s, k, w, luck);
      FollowsHollow(s, input, StopInstance(s, k, w, luck).value, j);
    case RestartCommand(k, luck) =>
      RestartFollows(s, k, w, luck);
      FollowsHollow(s, input, RestartInstance(s, k, w, luck).value, j);
    case StartClassCommand(c, env, luck) =>
      StartFromClassFollows(s, c, env, w, luck);
      FollowsHollow(s, input, StartFromClass(s, c, env, w, luck).value, j);
  }

  lemma FollowsHollow(s: Sys, input: Input, r: Sys, j: JobId)
    requires Inv(s) && Inv(r) && Follows(s, r) && !ScriptEnds(input, j)
    ensures HollowRight(s, input, r, j)
  {
    hide Inv, HollowRight;
    HollowSame(s, input, r, j);
  }

  lemma HollowOther(s: Sys, input: Input, w: World, j: JobId)
    requires Between(s) && Current(s) && Possible(s, input)
    requires input.Emit? || input.PollEvents? || input.FileAppeared? || input.FileChanged? || input.FileVanished?
             || input.ClassesReordered? || input.InstancesReordered?
    ensures Step(s, input, w).Ok? && HollowRight(s, input, Step(s, input, w).value, j)
  {
    hide Inv, Current, Chronicle, NoneFinished, NoneWaiting, Rewired, Poll, LoadFile, ReloadFile, RemoveFile,
      HollowRight, Swapped, Evolves;
    match input
    case Emit(what) =>
      NewsKeeps(s, what);
      HollowSame(s, input, EventNew(s, what, []), j);
    case PollEvents(turns, luck) =>
      PollKeeps(s, 0, false, turns, w, luck);
      HollowSame(s, input, Poll(s, 0, false, turns, w, luck).value.sys, j);
    case FileAppeared(at, config, startOn) =>
      LoadFileKeeps(s, at, config, startOn, w);
      RewiredHollow(s, input, LoadFile(s, at, config, startOn, w).value, j);
    case FileChanged(c, config, startOn) =>
      ReloadFileKeeps(s, c, config, startOn, w);
      RewiredHollow(s, input, ReloadFile(s, c, config, startOn, w).value, j);
    case FileVanished(c) =>
      RemoveFileKeeps(s, c);
      RewiredHollow(s, input, RemoveFile(s, c).value, j);
    case ClassesReordered(i) =>
      ClassesReorderedKeeps(s, i);
      RewiredHollow(s, input, s.(registered := Swapped(s.registered, i)), j);
    case InstancesReordered(c, i) =>
      InstancesReorderedKeeps(s, c, i);
      RewiredHollow(s, input, SetClass(s, c, s.classes[c].(instances := Swapped(s.classes[c].instances, i))), j);
  }

  lemma RewiredHollow(s: Sys, input: Input, r: Sys, j: JobId)
    requires Inv(s) && Rewired(s, r) && !ScriptEnds(input, j)
    ensures HollowRight(s, input, r, j)
  {
    hide Inv, HollowRight;
    HollowSame(s, input, r, j);
  }

  /** Every step, in every safe state: the only way into running without a main process is the end of such a script. */
  lemma HollowExactly(s: Sys, input: Input, w: World, j: JobId)
    requires Safe(s, w)
    ensures Step(s, input, w).Ok? && HollowRight(s, input, Step(s, input, w).value, j)
  {
    hide Inv, Current, Trusty, Chronicle, NoneFinished, NoneWaiting, HollowRight, Step, Possible, Evolves;
    StepSafe(s, input, w);
    if !Possible(s, input) {
      NothingDone(s, input, w);
      HollowIdle(s, input, j);
    } else if input.StartCommand? || input.StopCommand? || input.RestartCommand? || input.StartClassCommand? {
      HollowCommand(s, input, w, j);
    } else if input.SetupSucceeded? || input.SetupFailed? || input.MainReady? || input.Died? || input.KillTimerFired? {
      if input.j == j { HollowReport(s, input, w, j); } else { HollowElsewhere(s, input, w, j); }
    } else {
      HollowOther(s, input, w, j);
    }
  }

  lemma HollowIdle(s: Sys, input: Input, j: JobId)
    requires !Possible(s, input)
    ensures HollowRight(s, input, s, j)
  {
    hide Possible;
  }

  /** The job has run ever since the k-th of the inputs. */
  ghost predicate RunsSince(inputs: seq<Input>, w: World, j: JobId, k: nat) {
    forall m :: k < m <= |inputs| ==> Runs(Final(inputs[..m], w), j)
  }

  /** The k-th input ended such a script, and the job has run ever since. */
  ghost predicate HollowSince(inputs: seq<Input>, w: World, j: JobId, k: nat) {
    k < |inputs| && Hollows(Final(inputs[..k], w), inputs[k], j) && RunsSince(inputs, w, j, k)
  }

  /**
   At the end of any run a job runs without its main process exactly when, at some point, a
   post-start or pre-stop script of it ended while it was to start and its main process was
   gone, and it has been running ever since.
   */
  lemma {:induction false} RunningWithoutMain(inputs: seq<Input>, w: World, j: JobId)
    ensures Hollow(Final(inputs, w), j) <==> exists k: nat :: HollowSince(inputs, w, j, k)
    decreases |inputs|
  {
    hide Final, Hollows, Step;
    if inputs == [] {
      NothingAtFirst(w, j);
      assert inputs == [];
    } else {
      var n := |inputs| - 1;
      var init, last := inputs[..n], inputs[n];
      assert init + [last] == inputs && inputs[..n] == init && inputs[..|inputs|] == inputs;
      OneMoreInput(init, last, w);
      HollowExactly(Final(init, w), last, w, j);
      RunningWithoutMain(init, w, j);
      if Hollow(Final(inputs, w), j) {
        if Hollows(Final(init, w), last, j) {
          assert HollowSince(inputs, w, j, n);
        } else {
          var k: nat :| HollowSince(init, w, j, k);
          SinceLonger(inputs, w, j, k);
        }
      }
      if k: nat :| HollowSince(inputs, w, j, k) {
        if k < n { SinceShorter(inputs, w, j, k); }
      }
    }
  }

  lemma NothingAtFirst(w: World, j: JobId)
    ensures !LiveJob(Final([], w), j)
  {
  }

  lemma SinceLonger(inputs: seq<Input>, w: World, j: JobId, k: nat)
    requires |inputs| > 0 && HollowSince(inputs[..|inputs| - 1], w, j, k) && Runs(Final(inputs, w), j)
    ensures HollowSince(inputs, w, j, k)
  {
    hide Final, Hollows;
    var init := inputs[..|inputs| - 1];
    assert init[..k] == inputs[..k] && inputs[..|inputs|] == inputs;
    forall m | k < m <= |inputs| ensures Runs(Final(inputs[..m], w), j) {
      if m < |inputs| { assert init[..m] == inputs[..m]; }
    }
  }

  lemma SinceShorter(inputs: seq<Input>, w: World, j: JobId, k: nat)
    requires k + 1 < |inputs| && HollowSince(inputs, w, j, k)
    ensures HollowSince(inputs[..|inputs| - 1], w, j, k) && Runs(Final(inputs, w), j)
  {
    hide Final, Hollows;
    var init := inputs[..|inputs| - 1];
    assert init[..k] == inputs[..k] && inputs[..|inputs|] == inputs;
    forall m | k < m <= |init| ensures Runs(Final(init[..m], w), j) { assert init[..m] == inputs[..m]; }
  }

  /** A job that is stopping, has lost its main process and is told to start before its script ends runs without one. */
  lemma StartedTooEarly(inputs: seq<Input>, w: World, j: JobId, end: Input, luck: Oracle)
    requires Possible(Final(inputs, w), end) && ScriptEnds(end, j) && LiveJob(Final(inputs, w), j)
    requires Final(inputs, w).jobs[j].goal.Stop? && MainProcess !in Final(inputs, w).jobs[j].procs
    requires LiveClass(Final(inputs, w), Final(inputs, w).jobs[j].cls)
    requires MainProcess in Final(inputs, w).classes[Final(inputs, w).jobs[j].cls].config.processes
    ensures Hollow(Final(inputs + [StartCommand(j, luck)] + [end], w), j)
  {
    hide Final, Inv, Current, Trusty, Chronicle, NoneFinished, NoneWaiting, StartInstance, Follows, AdvanceJob;
    FinalSafe(inputs, w);
    var s := Final(inputs, w);
    OneMoreInput(inputs, StartCommand(j, luck), w);
    var s1 := Final(inputs + [StartCommand(j, luck)], w);
    ScriptThere(s, end, j);
    StartedInScript(s, j, end.p, w, luck);
    OneMoreInput(inputs + [StartCommand(j, luck)], end, w);
    HollowExactly(s1, end, w, j);
  }

  lemma ScriptThere(s: Sys, end: Input, j: JobId)
    requires Inv(s) && Possible(s, end) && ScriptEnds(end, j) && LiveJob(s, j)
    ensures end.p in s.jobs[j].procs
  {
    hide Base;
    assert JobAtRest(s, j);
  }

  lemma StartedInScript(s: Sys, j: JobId, p: Process, w: World, luck: Oracle)
    requires Inv(s) && LiveJob(s, j) && p in s.jobs[j].procs && (p.PostStartProcess? || p.PreStopProcess?)
    requires s.jobs[j].goal.Stop?
    ensures StartInstance(s, j, None, w, luck).Ok?
    ensures var r := StartInstance(s, j, None, w, luck).value;
            && LiveJob(r, j) && r.jobs[j].goal.Start? && r.jobs[j].procs == s.jobs[j].procs
            && r.jobs[j].setup == s.jobs[j].setup
            && r.jobs[j].cls == s.jobs[j].cls && r.classes == s.classes
  {
    hide Base, JobFinished, ChangeGoal, Touches;
    assert JobAtRest(s, j);
    assert s.jobs[j].state == HomeOf(p);
    FinishQuietly(s, j, s.jobs[j].(startEnv := None));
    var s1 := JobFinished(SetJob(s, j, s.jobs[j].(startEnv := None)), j, false).value;
    GoalKeeps(s1, j, Start, w, luck);
    StopOnKept(s, s1, j);
    StopOnKept(s1, ChangeGoal(s1, j, Start, w, luck).value, j);
  }

  // ---- They happen ----

  /** In this run the security process cannot be set up, and the job never leaves the security state again. */
  lemma SecurityJobLost(after: seq<Input>, w: World)
    ensures Parked(Final(Witness.Opening({SecurityProcess}) + [SetupFailed(0, SecurityProcess, Witness.LUCK)] + after,
            w), 0)
  {
    hide Run, Parked;
    var opening := Witness.Opening({SecurityProcess});
    Witness.SecurityReached(w);
    SecuritySetupParks(opening, w, 0, Witness.LUCK);
    ParkedForever(opening + [SetupFailed(0, SecurityProcess, Witness.LUCK)], after, w, 0);
  }

  /** In this run the main process ends while the post-start script runs, and the job is told to start again. */
  lemma JobRunsWithoutMain(w: World)
    ensures var r := Final(Witness.Losing() + [StartCommand(0, Witness.LUCK)] + [Died(0, PostStartProcess, 0, 0, false,
            Witness.LUCK)], w);
            Hollow(r, 0)
  {
    hide Run, Hollow;
    Witness.MainLost(w);
    StartedTooEarly(Witness.Losing(), w, 0, Died(0, PostStartProcess, 0, 0, false, Witness.LUCK), Witness.LUCK);
  }

  /**
   In this run two classes wait for the same event. The instance of the first cannot be
   named, so the second never sees the event, which is freed: no job is started, although
   the event would make the second class's condition true and its instance has a name.
   */
  lemma EventMissed()
    ensures var w := Witness.NOTHING;
            var before, after := Final(Witness.Missing()[..3], w), Final(Witness.Missing(), w);
            && before.registered == [0, 1] && |before.classes| == 2 && LiveEvent(before, 0)
            && before.events[0].progress.Pending?
            && Nameless(before, 0, 0, w) && Trips(before.classes[1].startOn, 0, StartHit(before, 0, w))
            && !Nameless(before, 0, 1, w)
            && |after.events| == 1 && !after.events[0].live && after.jobs == [] && after.classes == before.classes
  {
    hide Run, Nameless, Trips;
    Witness.EventComesAndGoes();
    Witness.EventComes();
    MissedEvent.FirstHasNone(Witness.Gone(Pending, true, [0], []), Witness.NOTHING);
    MissedEvent.SecondTrips(Witness.Gone(Pending, true, [0], []), Witness.NOTHING);
    MissedEvent.SecondHasOne(Witness.Gone(Pending, true, [0], []), Witness.NOTHING);
  }
}

/** When an event fails: exactly when a job that blocks it fails. */
module Failures {
  import opened Wrappers
  import opened Condition
  import opened JobMachine
  import opened Supervisor
  import opened SupervisorSteps
  import opened Ledger
  import opened Invariant
  import opened Arrival
  import opened ProcessSteps
  import opened ProcessEnds
  import opened CommandSteps
  import opened OfferSteps
  import opened EventSteps
  import opened ConfigSteps
  import opened SupervisorRuns

  /** The end, or the failed setup, of the process is a failure of the job. */
  predicate Discredits(s: Sys, input: Input)
    requires (input.Died? || input.SetupFailed?) ==> LiveJob(s, input.j) && LiveClass(s, s.jobs[input.j].cls)
  {
    match input
    case SetupFailed(_, p, _) => !p.PostStartProcess? && !p.PreStopProcess?
    case Died(j, p, status, now, disabled, _) =>
      var job, config := s.jobs[j], s.classes[s.jobs[j].cls].config;
      if p.MainProcess? then Unexpected(job) && BadExit(config, status) && GivesUp(config, job, status, now, disabled)
      else Vital(p) && status != 0
    case _ => false
  }

  /** The events that fail with the step: those a job blocks when it fails for the first time in its life. */
  ghost function Victims(s: Sys, input: Input): seq<EventId> {
    if !(Possible(s, input) && (input.Died? || input.SetupFailed?)) then []
    else if !LiveClass(s, s.jobs[input.j].cls) || !Discredits(s, input) || s.jobs[input.j].failed then []
    else s.jobs[input.j].blocking
  }

  lemma ProceedsMarks(s: Sys, r: Sys, j: JobId, job: Job, es: seq<EventId>, w: World, luck: Oracle)
    requires Proceeds(s, r, j, job, es, w, luck) || Moves(s, r, j, job, es, w, luck) || Exact(s, r, j, job, es)
    ensures Marks(s, r, es)
  {
    hide MovedOn, Marks;
  }

  lemma MainMarks(s: Sys, j: JobId, status: int, now: int, disabled: bool, w: World, luck: Oracle)
    requires Inv(s) && LiveJob(s, j) && MainProcess in s.jobs[j].procs && MainProcess !in s.jobs[j].setup
    ensures LiveClass(s, s.jobs[j].cls) && Terminated(s, j, MainProcess, status, now, disabled, w, luck).Ok?
    ensures var job, config := s.jobs[j], s.classes[s.jobs[j].cls].config;
            var blamed := Unexpected(job) && BadExit(config, status) && GivesUp(config, job, status, now, disabled);
            Marks(s, Terminated(s, j, MainProcess, status, now, disabled, w, luck).value,
              if blamed && !job.failed then job.blocking else [])
  {
    hide Inv, Terminated, Proceeds, Moves, Exact, Marks;
    MainEndsExactly(s, j, status, now, disabled, w, luck);
    var r, config, gone := Terminated(s, j, MainProcess, status, now, disabled, w, luck).value,
                           s.classes[s.jobs[j].cls].config, Gone(s.jobs[j], MainProcess);
    var counted := Counted(config, gone, now);
    if !Unexpected(s.jobs[j]) {
      ProceedsMarks(s, r, j, gone, [], w, luck);
    } else if !BadExit(config, status) {
      ProceedsMarks(s, r, j, gone.(goal := Stop), [], w, luck);
    } else if !config.respawn || disabled {
      ProceedsMarks(s, r, j, Blamed(gone, true, Some(MainProcess), status).(goal := Stop), Dragged(gone, true), w,
        luck);
    } else if GivesUp(config, s.jobs[j], status, now, disabled) {
      ProceedsMarks(s, r, j, Blamed(counted, true, None, 0).(goal := Stop), Dragged(counted, true), w, luck);
    } else if !gone.state.Spawned? {
      ProceedsMarks(s, r, j, if Attended(gone) then counted.(goal := Respawning) else counted, [], w, luck);
    }
  }

  lemma DeathMarks(s: Sys, input: Input, w: World)
    requires Inv(s) && Possible(s, input) && (input.Died? || input.SetupFailed?)
    ensures Step(s, input, w).Ok? && Marks(s, Step(s, input, w).value, Victims(s, input))
  {
    hide Inv, Moves, Exact, Terminated, ChildError, Marks, GivesUp, Good, Ends;
    ReadyAtRest(s, input.j);
    match input
    case SetupFailed(j, p, luck) =>
      ChildErrorKeeps(s, j, p, w, luck);
      var r, job := ChildError(s, j, p, w, luck).value,
                    s.jobs[j].(procs := s.jobs[j].procs - {p}, setup := s.jobs[j].setup - {p});
      ProceedsMarks(s, r, j, if p.PostStartProcess? || p.PreStopProcess? then job
                             else Blamed(job, true, Some(p), -1).(goal := Stop), Victims(s, input), w, luck);
    case Died(j, p, status, now, disabled, luck) =>
      if p == MainProcess {
        MainMarks(s, j, status, now, disabled, w, luck);
      } else {
        ScriptEndsExactly(s, j, p, status, now, disabled, w, luck);
        var r, gone := Terminated(s, j, p, status, now, disabled, w, luck).value, Gone(s.jobs[j], p);
        var ended := if Vital(p) && status != 0 then Blamed(gone, true, Some(p), status).(goal := Stop) else gone;
        ProceedsMarks(s, r, j, ended, Victims(s, input), w, luck);
      }
  }

  lemma ReportMarks(s: Sys, input: Input, w: World)
    requires Inv(s) && Possible(s, input)
    requires input.SetupSucceeded? || input.MainReady? || input.KillTimerFired?
    ensures Step(s, input, w).Ok? && Marks(s, Step(s, input, w).value, [])
  {
    hide Inv, MovedOn, ChildReady, KillTimer, AdvanceJob, Marks, Good, Ready;
    ReadyAtRest(s, input.j);
    match input
    case SetupSucceeded(j, p, luck) => ChildReadyKeeps(s, j, p, w, luck);
    case MainReady(j, luck) =>
      LiveReady(s, j);
      MainReadyKeeps(s, j, w, luck);
      GoodOk(s, AdvanceJob(s, j, w, luck), j);
    case KillTimerFired(j) => KillTimerKeeps(s, j);
  }

  lemma CommandMarks(s: Sys, input: Input, w: World)
    requires Inv(s) && NoneWaiting(s) && Possible(s, input)
    requires input.StartCommand? || input.StopCommand? || input.RestartCommand? || input.StartClassCommand?
    ensures Step(s, input, w).Ok? && Marks(s, Step(s, input, w).value, [])
  {
    hide Inv, NoneWaiting, StartInstance, StopInstance, RestartInstance, StartFromClass, EventsQuiet, NoneRunsAnew,
      Marks;
    match input
    case StartCommand(j, luck) => StartFollows(s, j, None, w, luck);
    case StopCommand(j, luck) => StopFollows(s, j, w, luck);
    case RestartCommand(j, luck) => RestartFollows(s, j, w, luck);
    case StartClassCommand(c, env, luck) => StartFromClassFollows(s, c, env, w, luck);
  }

  lemma OtherMarks(s: Sys, input: Input, w: World)
    requires Safe(s, w) && Possible(s, input)
    requires input.Emit? || input.PollEvents? || input.FileAppeared? || input.FileChanged? || input.FileVanished?
             || input.ClassesReordered? || input.InstancesReordered?
    ensures Step(s, input, w).Ok? && Marks(s, Step(s, input, w).value, [])
  {
    hide Inv, NoneWaiting, Chronicle, NoneFinished, Poll, LoadFile, ReloadFile, RemoveFile, EventsQuiet;
    match input
    case Emit(what) =>
    case PollEvents(turns, luck) => PollKeeps(s, 0, false, turns, w, luck);
    case FileAppeared(at, config, startOn) => LoadFileKeeps(s, at, config, startOn, w);
    case FileChanged(c, config, startOn) => ReloadFileKeeps(s, c, config, startOn, w);
    case FileVanished(c) => RemoveFileKeeps(s, c);
    case ClassesReordered(i) =>
    case InstancesReordered(c, i) =>
  }

  /** Any input to any safe state marks exactly its victims as failed. */
  lemma StepMarks(s: Sys, input: Input, w: World)
    requires Safe(s, w)
    ensures Step(s, input, w).Ok? && Marks(s, Step(s, input, w).value, Victims(s, input))
  {
    hide Step, Inv, NoneWaiting, Victims, Possible;
    NoVictims(s, input);
    if !Possible(s, input) {
      NothingDone(s, input, w);
    } else if input.Died? || input.SetupFailed? {
      DeathMarks(s, input, w);
    } else if input.SetupSucceeded? || input.MainReady? || input.KillTimerFired? {
      ReportMarks(s, input, w);
    } else if input.StartCommand? || input.StopCommand? || input.RestartCommand? || input.StartClassCommand? {
      CommandMarks(s, input, w);
    } else {
      OtherMarks(s, input, w);
    }
  }

  lemma NoVictims(s: Sys, input: Input)
    ensures !Possible(s, input) || !(input.Died? || input.SetupFailed?) ==> Victims(s, input) == []
  {
  }

  /** At input k of the run a job failed that blocked the event. */
  ghost predicate FailsAt(inputs: seq<Input>, k: nat, e: EventId, w: World)
    requires k < |inputs|
  {
    Run(inputs[..k], w).Ok? && e in Victims(Run(inputs[..k], w).value, inputs[k])
  }

  /** In any run an event is marked as failed if and only if at some input a job failed that blocked it then. */
  lemma {:induction false} FailedExactly(inputs: seq<Input>, e: EventId, w: World)
    ensures Run(inputs, w).Ok?
    ensures e < |Run(inputs, w).value.events| ==>
              (Run(inputs, w).value.events[e].failed <==> exists k :: 0 <= k < |inputs| && FailsAt(inputs, k, e, w))
    decreases |inputs|
  {
    hide Safe, Step, Victims;
    EveryRunSafe(inputs, w);
    if inputs != [] {
      var n := |inputs| - 1;
      var init, last := inputs[..n], inputs[n];
      EveryRunSafe(init, w);
      FailedExactly(init, e, w);
      var s, r := Run(init, w).value, Run(inputs, w).value;
      StepMarks(s, last, w);
      VictimsKnown(s, last, w);
      assert FailsAt(inputs, n, e, w) <==> e in Victims(s, last);
      forall k | 0 <= k < n ensures FailsAt(inputs, k, e, w) <==> FailsAt(init, k, e, w) {
        assert inputs[..k] == init[..k];
      }
      if e >= |s.events| {
        forall k | 0 <= k < n ensures !FailsAt(init, k, e, w) {
          if FailsAt(init, k, e, w) { EarlyVictims(init, k, e, w); }
        }
      }
    }
  }

  /** Only events there are can fail. */
  lemma VictimsKnown(s: Sys, input: Input, w: World)
    requires Safe(s, w)
    ensures forall e :: e in Victims(s, input) ==> e < |s.events|
  {
    hide Inv, NoneWaiting;
    forall e | e in Victims(s, input) ensures e < |s.events| {
      BlockedKnown(s, input.j, e);
    }
  }

  lemma BlockedKnown(s: Sys, j: JobId, e: EventId)
    requires Inv(s) && j < |s.jobs| && e in s.jobs[j].blocking
    ensures e < |s.events|
  {
    hide Base;
    InvParts(s);
    JobHoldsPart(s.jobs, j, e);
    HeldIsLive(s, e);
  }

  lemma EarlyVictims(inputs: seq<Input>, k: nat, e: EventId, w: World)
    requires k < |inputs| && FailsAt(inputs, k, e, w)
    ensures Run(inputs, w).Ok? && e < |Run(inputs, w).value.events|
  {
    hide Safe, Step, Victims;
    EveryRunSafe(inputs[..k], w);
    VictimsKnown(Run(inputs[..k], w).value, inputs[k], w);
    assert inputs[..k] + inputs[k..] == inputs;
    EventsGoForward(inputs[..k], inputs[k..], w);
  }
}

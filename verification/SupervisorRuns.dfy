/** Every run of the supervisor, whatever happens outside and in whatever order. */
module SupervisorRuns {
  import opened Wrappers
  import opened Condition
  import opened ConditionEnviron
  import opened JobMachine
  import opened Supervisor
  import opened SupervisorSteps
  import opened Invariant
  import opened Transitions
  import opened ProcessSteps
  import opened CommandSteps
  import opened OfferSteps
  import opened EventSteps
  import opened ConfigSteps
  import opened StartProgress
  import opened Registry

  /**
   What every step keeps: the invariant of the heap, no job in waiting, a true history, a
   registry that is up to date, and start conditions that have earned what they hold.
   */
  ghost predicate Safe(s: Sys, w: World) { Between(s) && Current(s) && Trusty(s, w) }

  ghost predicate SafeStep(s: Sys, r: Result<Sys, Trap>, w: World) {
    r.Ok? && Safe(r.value, w) && Evolves(s, r.value)
  }

  // ---- From the steps' own terms ----

  lemma QuietSafe(s: Sys, r: Sys, w: World)
    requires Safe(s, w) && Inv(r) && NoneWaiting(r) && EventsQuiet(s, r) && Current(r) && Trusty(r, w)
    ensures SafeStep(s, Ok(r), w)
  {
    hide Inv, NoneWaiting, Chronicle, Trusty, Current;
    QuietEvolves(s, r);
    forall e: EventId | LiveEvent(r, e) ensures !r.events[e].progress.Finished? {
      if e < |s.events| { assert LiveEvent(s, e); }
    }
  }

  lemma GoodSafe(s: Sys, r: Result<Sys, Trap>, j: JobId, w: World)
    requires Safe(s, w) && Good(s, r, j)
    ensures SafeStep(s, r, w)
  {
    hide Inv, Touches, Chronicle, Trusty, NoneFinished, EventsQuiet, Current;
    TouchedWaiting(s, r.value, j);
    TouchesCurrent(s, r.value, j);
    TouchedTrusty(s, r.value, j, w);
    QuietSafe(s, r.value, w);
  }

  lemma RewiredSafe(s: Sys, r: Sys, w: World)
    requires Safe(s, w) && Rewired(s, r) && Current(r) && Trusty(r, w)
    ensures SafeStep(s, Ok(r), w)
  {
    hide Inv, Chronicle, Trusty, NoneFinished, EventsQuiet, Current;
    RewiredWaiting(s, r);
    QuietSafe(s, r, w);
  }

  lemma RewiredWaiting(s: Sys, r: Sys)
    requires NoneWaiting(s) && r.jobs == s.jobs
    ensures NoneWaiting(r)
  {
    forall k: JobId | LiveJob(r, k) ensures !r.jobs[k].state.Waiting? { assert LiveJob(s, k); }
  }

  // ---- Every kind of input ----

  lemma JobStep(s: Sys, input: Input, w: World)
    requires Safe(s, w) && Possible(s, input)
    requires input.StartCommand? || input.StopCommand? || input.RestartCommand? || input.SetupSucceeded?
             || input.SetupFailed?
             || input.MainReady? || input.Died? || input.KillTimerFired?
    ensures SafeStep(s, Step(s, input, w), w)
  {
    hide Inv, Chronicle, Trusty, NoneFinished, Current, Good, Ends, RunsAfter, SafeStep, StartInstance, StopInstance,
      RestartInstance, ChildReady, ChildError,
      AdvanceJob, Terminated, KillTimer, Ready;
    match input
    case StartCommand(j, luck) =>
      StartKeeps(s, j, None, w, luck);
      GoodSafe(s, StartInstance(s, j, None, w, luck), j, w);
    case StopCommand(j, luck) =>
      StopKeeps(s, j, w, luck);
      GoodSafe(s, StopInstance(s, j, w, luck), j, w);
    case RestartCommand(j, luck) =>
      RestartKeeps(s, j, w, luck);
      GoodSafe(s, RestartInstance(s, j, w, luck), j, w);
    case SetupSucceeded(j, p, luck) =>
      ChildReadyKeeps(s, j, p, w, luck);
      GoodSafe(s, ChildReady(s, j, p, w, luck), j, w);
    case SetupFailed(j, p, luck) =>
      ChildErrorKeeps(s, j, p, w, luck);
      GoodSafe(s, ChildError(s, j, p, w, luck), j, w);
    case MainReady(j, luck) =>
      ReadyAtRest(s, j);
      LiveReady(s, j);
      MainReadyKeeps(s, j, w, luck);
      GoodSafe(s, AdvanceJob(s, j, w, luck), j, w);
    case Died(j, p, status, now, disabled, luck) =>
      TerminatedKeeps(s, j, p, status, now, disabled, w, luck);
      GoodSafe(s, Terminated(s, j, p, status, now, disabled, w, luck), j, w);
    case KillTimerFired(j) =>
      KillTimerKeeps(s, j);
      GoodSafe(s, KillTimer(s, j), j, w);
  }

  lemma EventStep(s: Sys, input: Input, w: World)
    requires Safe(s, w) && Possible(s, input)
    requires input.Emit? || input.PollEvents? || input.StartClassCommand?
    ensures SafeStep(s, Step(s, input, w), w)
  {
    hide Inv, NoneWaiting, Chronicle, Trusty, NoneFinished, StartFromClass, Poll, EventsQuiet, Current, Evolves;
    match input
    case Emit(what) =>
      NewsKeeps(s, what);
      EmittedQuiet(s, what);
      QuietEvolves(s, EventNew(s, what, []));
      TrustyFrame(s, EventNew(s, what, []), w);
      CurrentTables(s, EventNew(s, what, []));
      QuietSafe(s, EventNew(s, what, []), w);
    case PollEvents(turns, luck) =>
      PollKeeps(s, 0, false, turns, w, luck);
      PollTrusty(s, 0, false, turns, w, luck);
    case StartClassCommand(c, env, luck) =>
      StartFromClassKeeps(s, c, env, w, luck);
      var r := StartFromClass(s, c, env, w, luck).value;
      QuietEvolves(s, r);
      StartFromClassTrees(s, c, env, w, luck);
      StartFromClassFollows(s, c, env, w, luck);
      FollowsCurrent(s, r);
      TrustyFrame(s, r, w);
      QuietSafe(s, r, w);
  }

  lemma FollowsCurrent(s: Sys, r: Sys)
    requires Follows(s, r) && Current(s)
    ensures Current(r)
  {
    hide Current;
  }

  lemma EmittedQuiet(s: Sys, what: Occurrence)
    ensures EventsQuiet(s, EventNew(s, what, []))
  {
  }

  lemma ConfigStep(s: Sys, input: Input, w: World)
    requires Safe(s, w) && Possible(s, input)
    requires input.FileAppeared? || input.FileChanged? || input.FileVanished? || input.ClassesReordered?
             || input.InstancesReordered?
    ensures SafeStep(s, Step(s, input, w), w)
  {
    hide Inv, NoneWaiting, Chronicle, Trusty, NoneFinished, Rewired, LoadFile, ReloadFile, RemoveFile, Swapped, Current,
      Appointed;
    match input
    case FileAppeared(at, config, startOn) =>
      CurrentAll(s, config.name);
      LoadFileAppoints(s, at, config, startOn, w);
      LoadFileTrusty(s, at, config, startOn, w);
      RewiredSafe(s, LoadFile(s, at, config, startOn, w).value, w);
    case FileChanged(c, config, startOn) =>
      ReloadFileAppoints(s, c, config, startOn, w);
      ReloadFileTrusty(s, c, config, startOn, w);
      RewiredSafe(s, ReloadFile(s, c, config, startOn, w).value, w);
    case FileVanished(c) =>
      RemoveFileAppoints(s, c);
      RemoveFileTrusty(s, c, w);
      RewiredSafe(s, RemoveFile(s, c).value, w);
    case ClassesReordered(i) =>
      ClassesReorderedKeeps(s, i);
      RewiredTrusty(s, s.(registered := Swapped(s.registered, i)), w);
      RewiredInv(s, s.(registered := Swapped(s.registered, i)));
      ReorderedCurrent(s, i);
      RewiredSafe(s, s.(registered := Swapped(s.registered, i)), w);
    case InstancesReordered(c, i) =>
      var r := SetClass(s, c, s.classes[c].(instances := Swapped(s.classes[c].instances, i)));
      InstancesReorderedKeeps(s, c, i);
      RewiredTrusty(s, r, w);
      SwappedFacts(s.classes[c].instances, i);
      SwappedLength(s.classes[c].instances, i);
      CurrentTables(s, r);
      RewiredSafe(s, r, w);
  }

  lemma SwappedLength<T>(xs: seq<T>, i: nat)
    ensures |Swapped(xs, i)| == |xs|
  {
  }

  lemma ReorderedCurrent(s: Sys, i: nat)
    requires Inv(s) && Current(s) && Inv(s.(registered := Swapped(s.registered, i)))
    ensures Current(s.(registered := Swapped(s.registered, i)))
  {
    hide Swapped, Named;
    var r := s.(registered := Swapped(s.registered, i));
    SwappedFacts(s.registered, i);
    forall n ensures CurrentFor(r, n) {
      assert CurrentFor(s, n);
      SameNamed(s, r, s.files, n);
      InvTables(s);
      InvTables(r);
      NamedFound(s, s.registered, n);
      NamedFound(r, r.registered, n);
    }
  }

  /** Whatever arrives in a safe state, no assertion fails and the state is safe again. */
  lemma StepSafe(s: Sys, input: Input, w: World)
    requires Safe(s, w)
    ensures SafeStep(s, Step(s, input, w), w)
  {
    hide Safe, Step;
    if !Possible(s, input) {
      NothingDone(s, input, w);
    } else if input.Emit? || input.PollEvents? || input.StartClassCommand? {
      EventStep(s, input, w);
    } else if input.FileAppeared? || input.FileChanged? || input.FileVanished? || input.ClassesReordered?
      || input.InstancesReordered? {
      ConfigStep(s, input, w);
    } else {
      JobStep(s, input, w);
    }
  }

  lemma NothingDone(s: Sys, input: Input, w: World)
    requires !Possible(s, input)
    ensures Step(s, input, w) == Ok(s) && Evolves(s, s)
  {
    EvolvesSelf(s);
  }

  lemma InitialSafe(w: World)
    ensures Safe(INITIAL, w)
  {
  }

  /**
   No run fails an assertion, overwrites a pid, reaches an impossible branch or
   touches freed memory, and every state it goes through is safe.
   */
  lemma {:induction false} EveryRunSafe(inputs: seq<Input>, w: World)
    ensures Run(inputs, w).Ok? && Safe(Run(inputs, w).value, w)
    decreases |inputs|
  {
    hide Safe, Step;
    if inputs == [] {
      InitialSafe(w);
    } else {
      EveryRunSafe(inputs[..|inputs| - 1], w);
      StepSafe(Run(inputs[..|inputs| - 1], w).value, inputs[|inputs| - 1], w);
    }
  }

  /** Along a run events only go forward and what has happened stays. */
  lemma {:induction false} EventsGoForward(before: seq<Input>, after: seq<Input>, w: World)
    ensures Run(before, w).Ok? && Run(before + after, w).Ok?
    ensures Evolves(Run(before, w).value, Run(before + after, w).value)
    decreases |after|
  {
    hide Safe, Step, Evolves;
    EveryRunSafe(before, w);
    EveryRunSafe(before + after, w);
    if after == [] {
      assert before + after == before;
      EvolvesSelf(Run(before, w).value);
    } else {
      var init, last := after[..|after| - 1], after[|after| - 1];
      assert (before + after)[..|before + after| - 1] == before + init;
      EventsGoForward(before, init, w);
      EveryRunSafe(before + init, w);
      StepSafe(Run(before + init, w).value, last, w);
      EvolvesChain(Run(before, w).value, Run(before + init, w).value, Run(before + after, w).value);
    }
  }
}

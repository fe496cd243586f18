/** Events are taken up one after the other, in the order in which they were emitted. */
module EventOrder {
  import opened Wrappers
  import opened Condition
  import opened Supervisor
  import opened SupervisorSteps
  import opened Lists
  import opened Invariant
  import opened Transitions
  import opened Arrival
  import opened ProcessSteps
  import opened CommandSteps
  import opened EventSteps
  import opened ConfigSteps
  import opened SupervisorRuns

  /** If an event has been taken up, so have all that were emitted before it. */
  ghost predicate InTurn(s: Sys) {
    forall e, f :: 0 <= f < e < |s.events| && !s.events[e].progress.Pending? ==> !s.events[f].progress.Pending?
  }

  /** The first events of the list have been taken up. */
  ghost predicate Swept(s: Sys, n: nat) {
    forall k :: 0 <= k < n && k < |s.queue| ==>
      s.queue[k] < |s.events| && !s.events[s.queue[k]].progress.Pending?
  }

  lemma QuietInTurn(s: Sys, r: Sys)
    requires EventsQuiet(s, r) && InTurn(s)
    ensures InTurn(r)
  {
    forall e, f | 0 <= f < e < |r.events| && !r.events[e].progress.Pending? ensures !r.events[f].progress.Pending? {
      assert e < |s.events| && !s.events[e].progress.Pending?;
    }
  }

  /** The next event of the list comes after all that have been taken up, and all before it have been. */
  lemma NextInTurn(s: Sys, i: nat)
    requires Between(s) && Swept(s, i) && i < |s.queue|
    ensures s.queue[i] < |s.events| && forall f :: 0 <= f < s.queue[i] ==> !s.events[f].progress.Pending?
  {
    hide Base, NoneWaiting, NoneFinished, Successors;
    QueuedLive(s, i);
    InvQueued(s);
    forall f | 0 <= f < s.queue[i] ensures !s.events[f].progress.Pending? {
      if LiveEvent(s, f) {
        var k :| 0 <= k < |s.queue| && s.queue[k] == f;
        assert k < i;
      }
    }
  }

  lemma InvQueued(s: Sys)
    requires Inv(s)
    ensures Queued(s)
  {
  }

  /** A list that has only grown is the same at its front. */
  lemma FrontStays(s: Sys, r: Sys, i: nat)
    requires Queued(s) && Queued(r) && |s.events| <= |r.events| && i <= |s.queue|
    requires forall x :: 0 <= x < |s.events| ==> r.events[x].live == s.events[x].live
    ensures i <= |r.queue| && forall k :: 0 <= k < i ==> r.queue[k] == s.queue[k]
  {
    forall x | x in s.queue ensures x < |s.events| { assert LiveEvent(s, x); }
    forall x | 0 <= x < |s.events| ensures x in s.queue <==> x in r.queue {
      assert x in s.queue <==> LiveEvent(s, x);
      assert x in r.queue <==> LiveEvent(r, x);
    }
    SamePlace(s.queue, r.queue, |s.events|, i);
  }

  /** So it is in front of the one event that has left it. */
  lemma FrontRemains(s: Sys, r: Sys, i: nat)
    requires Queued(s) && Queued(r) && |s.events| <= |r.events| && i < |s.queue|
    requires forall x :: 0 <= x < |s.events| ==> r.events[x].live == (s.events[x].live && x != s.queue[i])
    ensures i <= |r.queue| && forall k :: 0 <= k < i ==> r.queue[k] == s.queue[k]
  {
    var front := s.queue[..i];
    forall x | x in front ensures x < s.queue[i] {
      var k :| 0 <= k < i && front[k] == x;
    }
    assert s.queue[i] in s.queue;
    assert LiveEvent(s, s.queue[i]);
    forall x | 0 <= x < s.queue[i] ensures x in front <==> x in r.queue {
      assert x in s.queue <==> LiveEvent(s, x);
      assert x in r.queue <==> LiveEvent(r, x);
      if x in s.queue {
        var k :| 0 <= k < |s.queue| && s.queue[k] == x;
        assert k < i;
        assert front[k] == x;
      }
    }
    assert Ascending(front);
    SamePlace(front, r.queue, s.queue[i], i);
  }

  /** An event is taken up in its turn, and the sweep goes on behind it. */
  lemma PendingInTurn(s: Sys, i: nat, w: World, luck: Oracle)
    requires Between(s) && InTurn(s) && Swept(s, i) && i < |s.queue| && LiveEvent(s, s.queue[i])
    requires s.events[s.queue[i]].progress.Pending?
    ensures EventPending(s, s.queue[i], w, luck).Ok?
    ensures var r := EventPending(s, s.queue[i], w, luck).value;
            InTurn(r) && Swept(r, i + 1) && i < |r.queue| && r.queue[i] == s.queue[i]
  {
    hide Base, NoneWaiting, NoneFinished, Successors, EventPending, Orderly, Marks, JobAtRest;
    var e := s.queue[i];
    NextInTurn(s, i);
    EventPendingKeeps(s, e, w, luck);
    var r := EventPending(s, e, w, luck).value;
    InvQueued(s);
    InvQueued(r);
    forall x | 0 <= x < |s.events| ensures r.events[x].live == s.events[x].live {
      assert Freed(x) in r.history <==> Freed(x) in s.history;
    }
    FrontStays(s, r, i + 1);
  }

  /** After an event has been freed the list goes on where it was. */
  lemma FinishedInTurn(s: Sys, i: nat, w: World, luck: Oracle)
    requires Between(s) && InTurn(s) && Swept(s, i) && i < |s.queue| && LiveEvent(s, s.queue[i])
    requires s.events[s.queue[i]].progress.Handling? && s.events[s.queue[i]].blockers == 0
    ensures var e := s.queue[i];
            var r := EventFinished(SetEvent(s, e, s.events[e].(progress := Finished)), e, w, luck);
            r.Ok? && InTurn(r.value) && Swept(r.value, i)
  {
    hide Base, NoneWaiting, NoneFinished, Successors, EventFinished, Orderly, Marks, JobAtRest, SameConfigs;
    var e := s.queue[i];
    ToFinished(s, e, w, luck);
    var r := EventFinished(SetEvent(s, e, s.events[e].(progress := Finished)), e, w, luck).value;
    InvQueued(s);
    InvQueued(r);
    TakenAlike(s, r, e);
    FrontRemains(s, r, i);
  }

  lemma TakenAlike(s: Sys, r: Sys, e: EventId)
    requires Chronicle(s) && Chronicle(r) && |s.events| <= |r.events| && OnlyFrees(s, r, e)
    ensures forall x :: 0 <= x < |r.events| ==>
              (r.events[x].progress.Pending? <==> x >= |s.events| || s.events[x].progress.Pending?)
    ensures forall x :: 0 <= x < |s.events| ==> r.events[x].live == (s.events[x].live && x != e)
  {
    hide Successors;
    forall x | 0 <= x < |r.events|
      ensures r.events[x].progress.Pending? <==> x >= |s.events| || s.events[x].progress.Pending?
    {
      assert Offered(x) in r.history <==> Offered(x) in s.history;
    }
    forall x | 0 <= x < |s.events| ensures r.events[x].live == (s.events[x].live && x != e) {
      assert Freed(x) in r.history <==> Freed(x) in s.history || x == e;
    }
  }

  /** event_poll takes up events in their turn, wherever its loop stands. */
  lemma {:induction false} PollInTurn(s: Sys, i: nat, again: bool, turns: nat, w: World, luck: Oracle)
    requires Between(s) && InTurn(s) && Swept(s, i)
    ensures Poll(s, i, again, turns, w, luck).Ok? ==> InTurn(Poll(s, i, again, turns, w, luck).value.sys)
    decreases turns
  {
    hide Between, InTurn, Swept, EventPending, EventFinished, Evolves, Orderly, Marks, Inv, NoneWaiting, Chronicle,
      NoneFinished;
    if turns > 0 && i >= |s.queue| && again {
      NothingSwept(s);
      PollInTurn(s, 0, false, turns - 1, w, luck);
    } else if turns > 0 && i < |s.queue| {
      BetweenParts(s, i);
      var e := s.queue[i];
      var pending := s.events[e].progress.Pending?;
      var s1 := s;
      if pending {
        PendingInTurn(s, i, w, luck);
        s1 := PendingBetween(s, e, w, luck);
      } else {
        SweptOn(s, i);
      }
      if s1.events[e].blockers > 0 {
        PollInTurn(s1, i + 1, again || pending, turns - 1, w, luck);
      } else {
        SweptBack(s1, i);
        FinishedInTurn(s1, i, w, luck);
        ToFinished(s1, e, w, luck);
        PollInTurn(EventFinished(SetEvent(s1, e, s1.events[e].(progress := Finished)), e, w, luck).value, i, true,
          turns - 1, w, luck);
      }
    }
  }

  lemma NothingSwept(s: Sys)
    ensures Swept(s, 0)
  {
  }

  lemma SweptOn(s: Sys, i: nat)
    requires Swept(s, i) && i < |s.queue| && s.queue[i] < |s.events| && !s.events[s.queue[i]].progress.Pending?
    ensures Swept(s, i + 1)
  {
  }

  lemma SweptBack(s: Sys, i: nat)
    requires Swept(s, i + 1)
    ensures Swept(s, i)
  {
  }

  lemma BetweenParts(s: Sys, i: nat)
    requires Between(s) && i < |s.queue|
    ensures LiveEvent(s, s.queue[i])
    ensures !s.events[s.queue[i]].progress.Pending? ==> s.events[s.queue[i]].progress.Handling?
  {
    hide Inv, NoneWaiting, Chronicle;
    QueuedLive(s, i);
  }

  lemma PendingBetween(s: Sys, e: EventId, w: World, luck: Oracle) returns (r: Sys)
    requires Between(s) && LiveEvent(s, e) && s.events[e].progress.Pending?
    ensures EventPending(s, e, w, luck) == Ok(r)
    ensures Between(r) && LiveEvent(r, e) && r.events[e].progress.Handling?
  {
    hide Inv, NoneWaiting, Chronicle, EventPending, Orderly, Marks, Evolves;
    EventPendingKeeps(s, e, w, luck);
    r := EventPending(s, e, w, luck).value;
    BetweenAgain(s, r, e, w, luck);
  }

  lemma BetweenAgain(s: Sys, r: Sys, e: EventId, w: World, luck: Oracle)
    requires NoneFinished(s) && LiveEvent(r, e) && r.events[e].progress.Handling? && Evolves(s, r)
    requires forall x :: 0 <= x < |s.events| && x != e ==> r.events[x].progress == s.events[x].progress
    requires forall x :: |s.events| <= x < |r.events| ==> r.events[x].progress.Pending?
    ensures NoneFinished(r)
  {
    StillNoneFinished(s, r, e);
  }

  // ---- Every input ----

  lemma JobStepQuiet(s: Sys, input: Input, w: World)
    requires Safe(s, w) && Possible(s, input)
    requires input.StartCommand? || input.StopCommand? || input.RestartCommand? || input.SetupSucceeded?
             || input.SetupFailed?
             || input.MainReady? || input.Died? || input.KillTimerFired?
    ensures Step(s, input, w).Ok? && EventsQuiet(s, Step(s, input, w).value)
  {
    hide Inv, Chronicle, NoneFinished, Current, Touches, Ends, RunsAfter, StartInstance, StopInstance,
      RestartInstance, ChildReady, ChildError, AdvanceJob, Terminated, KillTimer, Ready, EventsQuiet;
    match input
    case StartCommand(j, luck) =>
      StartKeeps(s, j, None, w, luck);
      TouchedWaiting(s, StartInstance(s, j, None, w, luck).value, j);
    case StopCommand(j, luck) =>
      StopKeeps(s, j, w, luck);
      TouchedWaiting(s, StopInstance(s, j, w, luck).value, j);
    case RestartCommand(j, luck) =>
      RestartKeeps(s, j, w, luck);
      TouchedWaiting(s, RestartInstance(s, j, w, luck).value, j);
    case SetupSucceeded(j, p, luck) =>
      ChildReadyKeeps(s, j, p, w, luck);
      TouchedWaiting(s, ChildReady(s, j, p, w, luck).value, j);
    case SetupFailed(j, p, luck) =>
      ChildErrorKeeps(s, j, p, w, luck);
      TouchedWaiting(s, ChildError(s, j, p, w, luck).value, j);
    case MainReady(j, luck) =>
      ReadyAtRest(s, j);
      LiveReady(s, j);
      MainReadyKeeps(s, j, w, luck);
      TouchedWaiting(s, AdvanceJob(s, j, w, luck).value, j);
    case Died(j, p, status, now, disabled, luck) =>
      TerminatedKeeps(s, j, p, status, now, disabled, w, luck);
      TouchedWaiting(s, Terminated(s, j, p, status, now, disabled, w, luck).value, j);
    case KillTimerFired(j) =>
      KillTimerKeeps(s, j);
      TouchedWaiting(s, KillTimer(s, j).value, j);
  }

  lemma OtherStepInTurn(s: Sys, input: Input, w: World)
    requires Safe(s, w) && Possible(s, input) && InTurn(s)
    requires input.Emit? || input.PollEvents? || input.StartClassCommand? || input.FileAppeared? || input.FileChanged?
             || input.FileVanished? || input.ClassesReordered? || input.InstancesReordered?
    ensures Step(s, input, w).Ok? && InTurn(Step(s, input, w).value)
  {
    hide Inv, NoneWaiting, Chronicle, NoneFinished, Poll, StartFromClass, LoadFile, ReloadFile, RemoveFile, EventsQuiet,
      InTurn, Current, Evolves;
    StepSafe(s, input, w);
    match input
    case Emit(what) =>
      EmittedQuiet(s, what);
      QuietInTurn(s, EventNew(s, what, []));
    case PollEvents(turns, luck) =>
      NothingSwept(s);
      PollInTurn(s, 0, false, turns, w, luck);
    case StartClassCommand(c, env, luck) =>
      StartFromClassKeeps(s, c, env, w, luck);
      QuietInTurn(s, StartFromClass(s, c, env, w, luck).value);
    case FileAppeared(at, config, startOn) =>
      LoadFileKeeps(s, at, config, startOn, w);
      QuietInTurn(s, LoadFile(s, at, config, startOn, w).value);
    case FileChanged(c, config, startOn) =>
      ReloadFileKeeps(s, c, config, startOn, w);
      QuietInTurn(s, ReloadFile(s, c, config, startOn, w).value);
    case FileVanished(c) =>
      RemoveFileKeeps(s, c);
      QuietInTurn(s, RemoveFile(s, c).value);
    case ClassesReordered(i) => SameEventsInTurn(s, Step(s, input, w).value);
    case InstancesReordered(c, i) => SameEventsInTurn(s, Step(s, input, w).value);
  }

  lemma SameEventsInTurn(s: Sys, r: Sys)
    requires r.events == s.events && InTurn(s)
    ensures InTurn(r)
  {
  }

  lemma StepInTurn(s: Sys, input: Input, w: World)
    requires Safe(s, w) && InTurn(s)
    ensures Step(s, input, w).Ok? && InTurn(Step(s, input, w).value)
  {
    hide Safe, Step, InTurn, EventsQuiet, Possible;
    if !Possible(s, input) {
      NothingDone(s, input, w);
    } else if input.Emit? || input.PollEvents? || input.StartClassCommand? || input.FileAppeared? || input.FileChanged?
      || input.FileVanished? || input.ClassesReordered? || input.InstancesReordered? {
      OtherStepInTurn(s, input, w);
    } else {
      JobStepQuiet(s, input, w);
      QuietInTurn(s, Step(s, input, w).value);
    }
  }

  /** In every run: once an event has been taken up, so have all that were emitted before it. */
  lemma {:induction false} EventsTakenInTurn(inputs: seq<Input>, w: World)
    ensures Run(inputs, w).Ok? && InTurn(Run(inputs, w).value)
    decreases |inputs|
  {
    hide Safe, Step, InTurn;
    EveryRunSafe(inputs, w);
    if inputs == [] {
      NobodyWaits();
    } else {
      EveryRunSafe(inputs[..|inputs| - 1], w);
      EventsTakenInTurn(inputs[..|inputs| - 1], w);
      StepInTurn(Run(inputs[..|inputs| - 1], w).value, inputs[|inputs| - 1], w);
    }
  }

  lemma NobodyWaits()
    ensures InTurn(INITIAL)
  {
  }
}

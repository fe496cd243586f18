/** The polling of events: every event is handled, finished and freed once, and the invariant is kept throughout. */
module EventSteps {
  import opened Wrappers
  import opened Condition
  import opened ConditionEnviron
  import opened JobMachine
  import opened JobReactions
  import opened Supervisor
  import opened SupervisorSteps
  import opened Ledger
  import opened Lists
  import opened Invariant
  import opened Transitions
  import opened Arrival
  import opened ProcessSteps
  import opened CommandSteps
  import opened OfferSteps

  // ---- What has happened to events ----

  /** The history tells of each thing once, and agrees with the events. */
  ghost predicate Chronicle(s: Sys) {
    && Distinct(s.history)
    && (forall e: EventId :: Offered(e) in s.history <==> e < |s.events| && !s.events[e].progress.Pending?)
    && (forall e: EventId :: Freed(e) in s.history <==> e < |s.events| && !s.events[e].live)
    && (forall e :: 0 <= e < |s.events| && !s.events[e].live ==>
         s.events[e].progress.Finished? && s.events[e].blocking == [])
    && (forall e: EventId, j: JobId :: Woken(e, j) in s.history ==>
          e < |s.events| && s.events[e].progress.Finished? && j !in s.events[e].blocking)
    && Successors(s)
  }

  /** A failed event that is not itself the news of a failure is succeeded by at most one event that tells of it. */
  ghost predicate Successors(s: Sys) {
    && (forall e: EventId, f: EventId :: Succeeded(e, f) in s.history ==>
          && e < |s.events| && f < |s.events| && !s.events[e].live && !NamesFailure(s.events[e].what.name)
          && s.events[f].what == Occurrence(s.events[e].what.name + "/failed", s.events[e].what.env))
    && (forall e: EventId, f: EventId, g: EventId :: Succeeded(e, f) in s.history && Succeeded(e, g) in s.history ==>
         f == g)
  }

  /** The names that tell of a failure are those that end so. */
  lemma FailureNames(name: string)
    ensures NamesFailure(name) <==> exists what: string :: name == what + "/failed"
  {
    if NamesFailure(name) { assert name == name[..|name| - 7] + "/failed"; }
  }

  /** The news of a failure is not succeeded by news of its own failure. */
  lemma SuccessorsEnd(s: Sys, e: EventId, f: EventId, g: EventId)
    requires Successors(s) && Succeeded(e, f) in s.history
    ensures Succeeded(f, g) !in s.history
  {
    var name := s.events[e].what.name;
    assert (name + "/failed")[|name|..] == "/failed";
    assert NamesFailure(s.events[f].what.name);
  }

  function Age(p: Progress): nat { match p case Pending => 0 case Handling => 1 case Finished => 2 }

  /** Events never change what they are, never go back and are never freed twice; nothing that happened is undone. */
  ghost predicate Evolves(s: Sys, r: Sys) {
    && s.history <= r.history && |s.events| <= |r.events|
    && forall e :: 0 <= e < |s.events| ==>
         && r.events[e].what == s.events[e].what && Age(s.events[e].progress) <= Age(r.events[e].progress)
         && (!s.events[e].live ==> !r.events[e].live)
  }

  lemma EvolvesChain(a: Sys, b: Sys, c: Sys)
    requires Evolves(a, b) && Evolves(b, c)
    ensures Evolves(a, c)
  {
  }

  lemma QuietEvolves(s: Sys, r: Sys)
    requires EventsQuiet(s, r)
    ensures Evolves(s, r) && (Chronicle(s) ==> Chronicle(r))
  {
  }

  /** Jobs that wait for one of their processes stay where they are, with their processes. */
  ghost predicate Sits(s: Sys, r: Sys) {
    forall k: JobId ::
      LiveJob(s, k) && !s.jobs[k].state.Waiting? && !s.jobs[k].state.Running? && !Blocked(s.jobs[k].state) ==>
      && LiveJob(r, k) && r.jobs[k].state == s.jobs[k].state && r.jobs[k].procs == s.jobs[k].procs
      && r.jobs[k].setup == s.jobs[k].setup
  }

  /** Jobs keep their places, none with a main process runs anew, and the registry stays up to date. */
  ghost predicate Orderly(s: Sys, r: Sys) {
    Sits(s, r) && NoneRunsAnew(s, r) && SameClasses(s, r) && (Current(s) ==> Current(r))
  }

  lemma OrderlyChain(a: Sys, b: Sys, c: Sys)
    requires Orderly(a, b) && Orderly(b, c)
    ensures Orderly(a, c)
  {
    hide Current;
    NoneRunsAnewChain(a, b, c);
  }

  /** The jobs and tables are the same. */
  lemma OrderlySame(s: Sys, r: Sys)
    requires r.jobs == s.jobs && r.classes == s.classes && r.registered == s.registered && r.files == s.files
    ensures Orderly(s, r)
  {
    hide Current;
    if Current(s) { CurrentTables(s, r); }
  }

  // ---- Changes to one event's progress ----

  /** Inside one event only the progress, and the history, differ. */
  ghost predicate Progressed(s: Sys, r: Sys, e: EventId) {
    && e < |s.events| && |r.events| == |s.events|
    && r == s.(events := s.events[e := s.events[e].(progress := r.events[e].progress)], history := r.history)
  }

  lemma ProgressedKeeps(s: Sys, r: Sys, e: EventId)
    requires Inv(s) && Progressed(s, r, e)
    ensures Inv(r) && (NoneWaiting(s) ==> NoneWaiting(r))
  {
    hide Linked, Queued, RegisteredOnce, InstancesAgree, FilesAgree, Holds;
    assert Balanced(r) by {
      forall x: EventId
        ensures Blockers(r, x) == Holds(r, x)
      {
        SameHolds(s, r, x);
        assert Blockers(s, x) == Holds(s, x);
      }
    }
    FrameKept(s, r);
    forall k: JobId ensures JobAtRest(r, k) { assert JobAtRest(s, k); }
  }

  lemma SameHolds(s: Sys, r: Sys, e: EventId)
    requires r.jobs == s.jobs && r.classes == s.classes
    ensures Holds(r, e) == Holds(s, e)
  {
  }

  /** event_pending */
  lemma EventPendingKeeps(s: Sys, e: EventId, w: World, luck: Oracle)
    requires Inv(s) && NoneWaiting(s) && Chronicle(s) && LiveEvent(s, e) && s.events[e].progress.Pending?
    ensures EventPending(s, e, w, luck).Ok?
    ensures var r := EventPending(s, e, w, luck).value;
            && Inv(r) && NoneWaiting(r) && Chronicle(r) && Evolves(s, r)
            && LiveEvent(r, e) && r.events[e].progress.Handling? && r.history == s.history + [Offered(e)]
            && (forall x :: 0 <= x < |s.events| && x != e ==> r.events[x].progress == s.events[x].progress)
            && (forall x :: |s.events| <= x < |r.events| ==> r.events[x].progress.Pending?)
            && s.registered == r.registered && Orderly(s, r) && Marks(s, r, [])
  {
    hide Inv, NoneWaiting, OfferAll, Follows, Chronicle, Evolves, Orderly;
    var s1 := Noted(SetEvent(s, e, s.events[e].(progress := Handling)), Offered(e));
    ProgressedKeeps(s, s1, e);
    OfferedChronicle(s, e, s1);
    OfferAllKeeps(s1, e, s.registered, w, luck);
    var r := OfferAll(s1, e, s.registered, w, luck).value;
    FollowsQuiet(s1, r);
    QuietEvolves(s1, r);
    EvolvesChain(s, s1, r);
    OrderlySame(s, s1);
    OrderlyChain(s, s1, r);
  }

  lemma FollowsQuiet(s: Sys, r: Sys)
    requires Follows(s, r)
    ensures EventsQuiet(s, r) && r.registered == s.registered && Orderly(s, r) && Marks(s, r, [])
  {
  }

  lemma OfferedChronicle(s: Sys, e: EventId, r: Sys)
    requires Chronicle(s) && LiveEvent(s, e) && s.events[e].progress.Pending?
    requires r == Noted(SetEvent(s, e, s.events[e].(progress := Handling)), Offered(e))
    ensures Chronicle(r) && Evolves(s, r)
  {
    DistinctAppend(s.history, Offered(e));
  }

  // ---- The jobs that wait for an event ----

  function Wakings(e: EventId, js: seq<JobId>): seq<Act> {
    if js == [] then [] else [Woken(e, js[0])] + Wakings(e, js[1..])
  }

  /** The event is on its way out and nothing holds it. */
  ghost predicate Leaving(s: Sys, e: EventId) {
    LiveEvent(s, e) && s.events[e].progress.Finished? && s.events[e].blockers == 0
  }

  /** All events but this one keep their progress and who waits for them. */
  ghost predicate OthersQuiet(s: Sys, r: Sys, e: EventId) {
    && |s.events| <= |r.events|
    && (forall x :: |s.events| <= x < |r.events| ==> r.events[x].live && r.events[x].progress.Pending?)
    && forall x :: 0 <= x < |s.events| ==>
         && r.events[x].live == s.events[x].live && r.events[x].what == s.events[x].what
         && r.events[x].progress == s.events[x].progress && (x != e ==> r.events[x].blocking == s.events[x].blocking)
  }

  lemma OthersQuietChain(a: Sys, b: Sys, c: Sys, e: EventId)
    requires OthersQuiet(a, b, e) && OthersQuiet(b, c, e)
    ensures OthersQuiet(a, c, e)
  {
  }

  /** The first job that waits for the event is taken off its list. */
  function Released(s: Sys, e: EventId, j: JobId): Sys
    requires LiveEvent(s, e) && LiveJob(s, j) && s.events[e].blocking != []
  {
    var s1 := Noted(SetEvent(s, e, s.events[e].(blocking := s.events[e].blocking[1..])), Woken(e, j));
    SetJob(s1, j, s1.jobs[j].(blocker := None))
  }

  lemma FirstWaits(s: Sys, e: EventId)
    requires Inv(s) && LiveEvent(s, e) && s.events[e].blocking != []
    ensures var j := s.events[e].blocking[0];
            LiveJob(s, j) && s.jobs[j].blocker == Some(e) && j !in s.events[e].blocking[1..]
  {
    assert s.events[e].blocking[0] in s.events[e].blocking;
    assert Distinct(s.events[e].blocking);
  }

  lemma ReleasedReady(s: Sys, e: EventId, luck: Oracle)
    requires Inv(s) && LiveEvent(s, e) && s.events[e].blocking != []
    ensures LiveJob(s, s.events[e].blocking[0])
    ensures var j := s.events[e].blocking[0];
            var r := Released(s, e, j);
            && Ready(r, j) && Departs(r.classes[r.jobs[j].cls].config, r.jobs[j]) && !IsSpawningState(r.jobs[j].state)
  {
    hide Balanced, Queued, RegisteredOnce, InstancesAgree, FilesAgree, SoundTrees, Departs;
    FirstWaits(s, e);
    var j := s.events[e].blocking[0];
    var r := Released(s, e, j);
    ReadyAtRest(s, j);
    WakeDeparts(s.classes[s.jobs[j].cls].config, r.jobs[j]);
    ReleasedBase(s, e);
    forall k: JobId | k != j ensures JobAtRest(r, k) { assert JobAtRest(s, k); }
  }

  lemma ReleasedBase(s: Sys, e: EventId)
    requires Base(s) && LiveEvent(s, e) && s.events[e].blocking != [] && LiveJob(s, s.events[e].blocking[0])
    requires s.jobs[s.events[e].blocking[0]].blocker == Some(e) && s.events[e].blocking[0] !in s.events[e].blocking[1..]
    ensures Base(Released(s, e, s.events[e].blocking[0]))
  {
    hide Balanced, Linked, Queued, RegisteredOnce, InstancesAgree, FilesAgree;
    var j := s.events[e].blocking[0];
    var r := Released(s, e, j);
    ReleasedBalance(s, e, r, j);
    ReleasedLinks(s, e, r, j);
    ReleasedQueue(s, e, r);
    ReleasedTables(s, r, j);
  }

  lemma ReleasedBalance(s: Sys, e: EventId, r: Sys, j: JobId)
    requires Balanced(s) && LiveEvent(s, e) && LiveJob(s, j) && s.events[e].blocking != [] && r == Released(s, e, j)
    ensures Balanced(r)
  {
    forall x: EventId ensures Blockers(r, x) == Holds(r, x) {
      JobHoldsUpdate(s.jobs, j, r.jobs[j], x);
      assert Blockers(s, x) == Holds(s, x);
    }
  }

  lemma ReleasedQueue(s: Sys, e: EventId, r: Sys)
    requires Queued(s) && r.queue == s.queue && |r.events| == |s.events|
    requires forall x :: 0 <= x < |s.events| ==> r.events[x].live == s.events[x].live
    ensures Queued(r)
  {
    forall x | x in r.queue ensures LiveEvent(r, x) { assert LiveEvent(s, x); }
    forall x: EventId | LiveEvent(r, x) ensures x in r.queue { assert LiveEvent(s, x); }
  }

  lemma ReleasedLinks(s: Sys, e: EventId, r: Sys, j: JobId)
    requires Linked(s) && LiveEvent(s, e) && LiveJob(s, j) && s.events[e].blocking != [] && s.events[e].blocking[0] == j
    requires s.jobs[j].blocker == Some(e) && j !in s.events[e].blocking[1..] && r == Released(s, e, j)
    ensures Linked(r)
  {
    var list := s.events[e].blocking;
    assert list == [list[0]] + list[1..];
    forall x, k: JobId | 0 <= x < |r.events| && k in r.events[x].blocking
      ensures LiveJob(r, k) && r.jobs[k].blocker == Some(x)
    {
      assert k in s.events[x].blocking;
      assert LiveJob(s, k) && s.jobs[k].blocker == Some(x);
    }
    forall k: JobId | LiveJob(r, k) && r.jobs[k].blocker.Some?
      ensures LiveEvent(r, r.jobs[k].blocker.value) && k in r.events[r.jobs[k].blocker.value].blocking
    {
      assert LiveJob(s, k);
      assert k in s.events[s.jobs[k].blocker.value].blocking;
    }
    forall x | 0 <= x < |r.events| ensures Distinct(r.events[x].blocking) { assert Distinct(s.events[x].blocking); }
  }

  lemma ReleasedTables(s: Sys, r: Sys, j: JobId)
    requires RegisteredOnce(s) && InstancesAgree(s) && FilesAgree(s) && LiveJob(s, j)
    requires r == s.(jobs := s.jobs[j := s.jobs[j].(blocker := None)], events := r.events, history := r.history)
    ensures RegisteredOnce(r) && InstancesAgree(r) && FilesAgree(r)
  {
    forall c | c in r.registered ensures LiveClass(r, c) { assert LiveClass(s, c); }
    forall k: JobId | LiveJob(r, k) ensures LiveClass(r, r.jobs[k].cls) && k in r.classes[r.jobs[k].cls].instances {
      assert LiveJob(s, k);
    }
    forall c, k: JobId | 0 <= c < |r.classes| && k in r.classes[c].instances
      ensures LiveJob(r, k) && r.jobs[k].cls == c
    {
      assert k in s.classes[c].instances;
      assert LiveJob(s, k);
    }
  }

  lemma ReleasedChronicle(s: Sys, e: EventId, j: JobId)
    requires Chronicle(s) && Leaving(s, e) && s.events[e].blocking != [] && j == s.events[e].blocking[0]
    requires LiveJob(s, j) && j !in s.events[e].blocking[1..]
    ensures Chronicle(Released(s, e, j))
  {
    assert j in s.events[e].blocking;
    DistinctAppend(s.history, Woken(e, j));
    var r := Released(s, e, j);
    forall x: EventId, k: JobId | Woken(x, k) in r.history
      ensures x < |r.events| && r.events[x].progress.Finished? && k !in r.events[x].blocking
    {
      if Woken(x, k) in s.history { assert k !in s.events[x].blocking; }
    }
  }

  /** One job is woken: it moves on, and only its own state and what it holds change. */
  lemma WakeOne(s: Sys, e: EventId, w: World, luck: Oracle) returns (r: Sys)
    requires Inv(s) && NoneWaiting(s) && Chronicle(s) && Leaving(s, e) && s.events[e].blocking != []
    ensures LiveJob(s, s.events[e].blocking[0])
    ensures AdvanceJob(Released(s, e, s.events[e].blocking[0]), s.events[e].blocking[0], w, luck) == Ok(r)
    ensures Inv(r) && NoneWaiting(r) && Chronicle(r) && Leaving(r, e) && OthersQuiet(s, r, e)
    ensures r.events[e].blocking == s.events[e].blocking[1..]
    ensures r.history == s.history + [Woken(e, s.events[e].blocking[0])] && SameConfigs(s, r) && Orderly(s, r)
    ensures OnlyWoken(s, r, s.events[e].blocking[0])
  {
    hide Inv, NoneWaiting, Chronicle, AdvanceJob, Ready, Departs, Orderly, RunsAfter, Current, MovedOn, OnlyWoken;
    FirstWaits(s, e);
    var j := s.events[e].blocking[0];
    var s1 := Released(s, e, j);
    ReleasedReady(s, e, luck);
    ReleasedChronicle(s, e, j);
    LiveReady(s1, j);
    AdvanceGood(s1, j, w, luck);
    r := AdvanceJob(s1, j, w, luck).value;
    ReleasedWaiting(s, s1, j);
    TouchedWaiting(s1, r, j);
    QuietEvolves(s1, r);
    WokenOrderly(s, s1, r, j);
    WokenAlone(s, s1, r, e, j, w, luck);
  }

  /** The job has arrived as it should, somewhere its class and its goal take it to. */
  ghost predicate ArrivesAs(config: Config, job: Job, r: Sys, j: JobId, chance: Luck, e: EventId) {
    && (LiveJob(r, j) <==> !Rests(config, job, chance).Waiting?)
    && (LiveJob(r, j) ==> r.jobs[j] == Arrived(config, job, chance, e))
  }

  /** The job has gone on from where it waited. */
  ghost predicate GoneOn(s: Sys, r: Sys, j: JobId) {
    && j < |s.jobs| && s.jobs[j].cls < |s.classes|
    && exists chance: Luck, e: EventId ::
         ArrivesAs(s.classes[s.jobs[j].cls].config, s.jobs[j].(blocker := None), r, j, chance, e)
  }

  /** The job has gone on, the other jobs are as they were, and no event is newly marked as failed. */
  ghost predicate OnlyWoken(s: Sys, r: Sys, j: JobId) {
    && |r.jobs| == |s.jobs| && (forall k :: 0 <= k < |s.jobs| && k != j ==> r.jobs[k] == s.jobs[k])
    && GoneOn(s, r, j) && Marks(s, r, [])
  }

  lemma WokenAlone(s: Sys, s1: Sys, r: Sys, e: EventId, j: JobId, w: World, luck: Oracle)
    requires LiveEvent(s, e) && LiveJob(s, j) && s.events[e].blocking != [] && s1 == Released(s, e, j)
    requires s.jobs[j].cls < |s.classes| && Touches(s1, r, j)
    requires MovedOn(s1, s1.jobs[j], r, j, w, luck) && Marks(s1, r, [])
    ensures OnlyWoken(s, r, j)
  {
    hide Rests, Arrived, Tells, AtPlace;
    assert ArrivesAs(s.classes[s.jobs[j].cls].config, s.jobs[j].(blocker := None), r, j, luck(j, |s.events|),
      |s.events|);
    forall x | 0 <= x < |s.events| ensures r.events[x].failed == s.events[x].failed {
      assert s1.events[x].failed == s.events[x].failed;
    }
  }

  lemma WokenOrderly(s: Sys, s1: Sys, r: Sys, j: JobId)
    requires Inv(s) && LiveJob(s, j) && s.jobs[j].blocker.Some? && LiveClass(s, s.jobs[j].cls)
    requires |s1.jobs| == |s.jobs| && s1.jobs == s.jobs[j := s.jobs[j].(blocker := None)]
    requires s1.classes == s.classes && s1.registered == s.registered && s1.files == s.files
    requires Touches(s1, r, j) && RunsAfter(s.classes[s.jobs[j].cls].config, s1.jobs[j], r, j)
    ensures Orderly(s, r)
  {
    hide Base, Current;
    assert JobAtRest(s, j);
    if Current(s) {
      CurrentTables(s, s1);
      TouchesCurrent(s1, r, j);
    }
  }

  lemma ReleasedWaiting(s: Sys, r: Sys, j: JobId)
    requires NoneWaiting(s) && |r.jobs| == |s.jobs| && forall k :: 0 <= k < |s.jobs| && k != j ==>
               r.jobs[k] == s.jobs[k]
    ensures forall k: JobId :: LiveJob(r, k) && k != j ==> !r.jobs[k].state.Waiting?
  {
    forall k: JobId | LiveJob(r, k) && k != j ensures !r.jobs[k].state.Waiting? { assert LiveJob(s, k); }
  }

  /** The loop of event_finished: every job on the list goes on, once, and nothing is added to the list. */
  lemma {:induction false} WakeAllKeeps(s: Sys, e: EventId, w: World, luck: Oracle, n: nat)
    requires Inv(s) && NoneWaiting(s) && Chronicle(s) && Leaving(s, e) && n == |s.events[e].blocking|
    ensures WakeAll(s, e, w, luck, n).Ok?
    ensures var r := WakeAll(s, e, w, luck, n).value;
            && Inv(r) && NoneWaiting(r) && Chronicle(r) && Leaving(r, e) && OthersQuiet(s, r, e)
            && r.events[e].blocking == [] && r.history == s.history + Wakings(e, s.events[e].blocking)
            && SameConfigs(s, r) && Orderly(s, r) && OnlyTheseWoken(s, r, s.events[e].blocking)
    decreases n
  {
    hide Inv, NoneWaiting, Chronicle, AdvanceJob, OthersQuiet, Orderly, SameConfigs, OnlyTheseWoken, OnlyWoken;
    if n == 0 {
      OthersQuietSelf(s, e);
      OrderlySame(s, s);
      SameConfigsMove(s, s);
      NobodyWoken(s);
    } else {
      WaitsOnce(s, e);
      var r := WakeOne(s, e, w, luck);
      WakeAllKeeps(r, e, w, luck, n - 1);
      OthersQuietChain(s, r, WakeAll(r, e, w, luck, n - 1).value, e);
      OrderlyChain(s, r, WakeAll(r, e, w, luck, n - 1).value);
      SameConfigsChain(s, r, WakeAll(r, e, w, luck, n - 1).value);
      assert WakeAll(s, e, w, luck, n) == WakeAll(r, e, w, luck, n - 1);
      TheseWoken(s, r, WakeAll(r, e, w, luck, n - 1).value, s.events[e].blocking);
    }
  }

  /** Each job of the list has gone on, all others are as they were, and no event is newly marked as failed. */
  ghost predicate OnlyTheseWoken(s: Sys, r: Sys, js: seq<JobId>) {
    && |r.jobs| == |s.jobs| && (forall k :: 0 <= k < |s.jobs| && k !in js ==> r.jobs[k] == s.jobs[k])
    && (forall j :: j in js ==> GoneOn(s, r, j)) && Marks(s, r, [])
  }

  lemma NobodyWoken(s: Sys)
    ensures OnlyTheseWoken(s, s, [])
  {
  }

  lemma WaitsOnce(s: Sys, e: EventId)
    requires Inv(s) && LiveEvent(s, e)
    ensures Distinct(s.events[e].blocking)
  {
  }

  lemma TheseWoken(s: Sys, s1: Sys, r: Sys, js: seq<JobId>)
    requires js != [] && Distinct(js) && OnlyWoken(s, s1, js[0]) && OnlyTheseWoken(s1, r, js[1..])
    requires SameConfigs(s, s1)
    ensures OnlyTheseWoken(s, r, js)
  {
    hide ArrivesAs;
    assert js[0] !in js[1..];
    assert forall j :: j in js <==> j == js[0] || j in js[1..];
    forall j | j in js ensures GoneOn(s, r, j) {
      if j == js[0] {
        FirstWoken(s, s1, r, j);
      } else {
        LaterWoken(s, s1, r, j);
      }
    }
  }

  lemma FirstWoken(s: Sys, s1: Sys, r: Sys, j: JobId)
    requires GoneOn(s, s1, j) && |r.jobs| == |s1.jobs| && (j < |s1.jobs| ==> r.jobs[j] == s1.jobs[j])
    ensures GoneOn(s, r, j)
  {
    hide Rests, Arrived;
    var config, job := s.classes[s.jobs[j].cls].config, s.jobs[j].(blocker := None);
    var chance: Luck, e: EventId :| ArrivesAs(config, job, s1, j, chance, e);
    assert ArrivesAs(config, job, r, j, chance, e);
  }

  lemma LaterWoken(s: Sys, s1: Sys, r: Sys, j: JobId)
    requires GoneOn(s1, r, j) && SameConfigs(s, s1) && |s1.jobs| == |s.jobs|
    requires j < |s.jobs| ==> s1.jobs[j] == s.jobs[j]
    ensures GoneOn(s, r, j)
  {
    hide Rests, Arrived;
    var config, job := s1.classes[s1.jobs[j].cls].config, s1.jobs[j].(blocker := None);
    var chance: Luck, e: EventId :| ArrivesAs(config, job, r, j, chance, e);
    assert ArrivesAs(config, job, r, j, chance, e);
  }

  lemma SameConfigsMove(s: Sys, r: Sys)
    requires r.classes == s.classes
    ensures SameConfigs(s, r)
  {
  }

  lemma SameConfigsChain(a: Sys, b: Sys, c: Sys)
    requires SameConfigs(a, b) && SameConfigs(b, c)
    ensures SameConfigs(a, c)
  {
  }

  lemma OthersQuietSelf(s: Sys, e: EventId)
    ensures OthersQuiet(s, s, e)
  {
  }

  // ---- An event is freed ----

  /** The event leaves the list and is freed; nobody waits for it and nothing holds it. */
  lemma FreeEventKeeps(s: Sys, e: EventId, r: Sys)
    requires Inv(s) && Leaving(s, e) && s.events[e].blocking == []
    requires r ==
             s.(events := s.events[e := s.events[e].(live := false)], queue := Without(s.queue, e),
               history := r.history)
    ensures Inv(r) && (NoneWaiting(s) ==> NoneWaiting(r))
  {
    hide Balanced, Linked, Queued, RegisteredOnce, InstancesAgree, FilesAgree;
    FreeEventBalance(s, e, r);
    FreeEventLinks(s, e, r);
    FreeEventQueue(s, e, r);
    TablesKept(s, r);
    forall k: JobId ensures JobAtRest(r, k) { assert JobAtRest(s, k); }
  }

  lemma FreeEventBalance(s: Sys, e: EventId, r: Sys)
    requires Balanced(s) && LiveEvent(s, e) && s.events[e].blockers == 0
    requires r.jobs == s.jobs && r.classes == s.classes && r.events == s.events[e := s.events[e].(live := false)]
    ensures Balanced(r)
  {
    forall x: EventId ensures Blockers(r, x) == Holds(r, x) { assert Blockers(s, x) == Holds(s, x); }
  }

  lemma FreeEventLinks(s: Sys, e: EventId, r: Sys)
    requires Linked(s) && LiveEvent(s, e) && s.events[e].blocking == []
    requires r.jobs == s.jobs && r.events == s.events[e := s.events[e].(live := false)]
    ensures Linked(r)
  {
    forall x, k: JobId | 0 <= x < |r.events| && k in r.events[x].blocking
      ensures LiveJob(r, k) && r.jobs[k].blocker == Some(x)
    {
      assert LiveJob(s, k);
    }
    forall k: JobId | LiveJob(r, k) && r.jobs[k].blocker.Some?
      ensures LiveEvent(r, r.jobs[k].blocker.value) && k in r.events[r.jobs[k].blocker.value].blocking
    {
      assert LiveJob(s, k);
      assert k in s.events[s.jobs[k].blocker.value].blocking;
    }
    forall x | 0 <= x < |r.events| ensures Distinct(r.events[x].blocking) { assert Distinct(s.events[x].blocking); }
  }

  lemma FreeEventQueue(s: Sys, e: EventId, r: Sys)
    requires Queued(s) && LiveEvent(s, e) && r.events == s.events[e := s.events[e].(live := false)]
    requires r.queue == Without(s.queue, e)
    ensures Queued(r)
  {
    WithoutFacts(s.queue, e);
    WithoutAscends(s.queue, e);
    forall x | x in r.queue ensures LiveEvent(r, x) { assert LiveEvent(s, x); }
    forall x: EventId | LiveEvent(r, x) ensures x in r.queue { assert LiveEvent(s, x); }
  }

  /** The successor that tells of the event's failure. */
  function News(what: Occurrence): Occurrence { Occurrence(what.name + "/failed", what.env) }

  /** What event_finished adds to the history, once the jobs have been woken. */
  function LastActs(e: EventId, failed: bool, name: string, next: EventId): seq<Act> {
    (if failed && !NamesFailure(name) then [Succeeded(e, next)] else []) + [Freed(e)]
  }

  lemma LastChronicle(s: Sys, e: EventId, r: Sys)
    requires Chronicle(s) && Leaving(s, e) && s.events[e].blocking == []
    requires var spawn := s.events[e].failed && !NamesFailure(s.events[e].what.name);
             r.events == s.events[e := s.events[e].(live := false)]
                         + (if spawn then [Event(true, News(s.events[e].what), Pending, false, 0, [])] else [])
    requires r.history == s.history + LastActs(e, s.events[e].failed, s.events[e].what.name, |s.events|)
    ensures Chronicle(r) && Evolves(s, r)
  {
    hide Successors;
    if s.events[e].failed && !NamesFailure(s.events[e].what.name) {
      LastSuccessors(s, e, r);
      var h := s.history + [Succeeded(e, |s.events|)];
      assert Succeeded(e, |s.events|) !in s.history by { FreedOnly(s, e, |s.events|); }
      DistinctAppend(s.history, Succeeded(e, |s.events|));
      DistinctAppend(h, Freed(e));
      assert r.history == h + [Freed(e)];
    } else {
      SuccessorsKept(s, e, r);
      DistinctAppend(s.history, Freed(e));
    }
  }

  lemma FreedOnly(s: Sys, e: EventId, f: EventId)
    requires Successors(s) && LiveEvent(s, e)
    ensures Succeeded(e, f) !in s.history
  {
  }

  lemma SuccessorsKept(s: Sys, e: EventId, r: Sys)
    requires Successors(s) && LiveEvent(s, e) && r.history == s.history + [Freed(e)]
    requires r.events == s.events[e := s.events[e].(live := false)]
    ensures Successors(r)
  {
  }

  lemma LastSuccessors(s: Sys, e: EventId, r: Sys)
    requires Successors(s) && LiveEvent(s, e) && !NamesFailure(s.events[e].what.name)
    requires r.history == s.history + [Succeeded(e, |s.events|)] + [Freed(e)]
    requires r.events ==
             s.events[e := s.events[e].(live := false)] + [Event(true, News(s.events[e].what), Pending, false, 0, [])]
    ensures Successors(r)
  {
  }

  /** No event that is finished stays. */
  ghost predicate NoneFinished(s: Sys) { forall e: EventId :: LiveEvent(s, e) ==> !s.events[e].progress.Finished? }

  /**
   event_finished: the event is freed with no reference left, each job that
   waited for it has been woken once, and it has at most one successor.
   */
  lemma EventFinishedKeeps(s: Sys, e: EventId, w: World, luck: Oracle)
    requires Inv(s) && NoneWaiting(s) && Chronicle(s) && Leaving(s, e)
    requires forall x: EventId :: LiveEvent(s, x) && x != e ==> !s.events[x].progress.Finished?
    ensures EventFinished(s, e, w, luck).Ok?
    ensures var r := EventFinished(s, e, w, luck).value;
            && Inv(r) && NoneWaiting(r) && Chronicle(r) && NoneFinished(r) && Evolves(s, r) && SameConfigs(s, r)
            && Orderly(s, r) && OnlyTheseWoken(s, r, s.events[e].blocking)
            && !r.events[e].live && Holds(r, e) == 0
    ensures WakeAll(s, e, w, luck, |s.events[e].blocking|).Ok?
    ensures var r, woken := EventFinished(s, e, w, luck).value, WakeAll(s, e, w, luck, |s.events[e].blocking|).value;
            && e < |woken.events|
            && r.history == s.history + Wakings(e, s.events[e].blocking)
                            + LastActs(e, woken.events[e].failed, s.events[e].what.name, |woken.events|)
  {
    hide Inv, NoneWaiting, Chronicle, WakeAll, Without, Orderly, SameConfigs, OnlyTheseWoken;
    WakeAllKeeps(s, e, w, luck, |s.events[e].blocking|);
    var s1 := WakeAll(s, e, w, luck, |s.events[e].blocking|).value;
    var what, spawn := s1.events[e].what, s1.events[e].failed && !NamesFailure(s1.events[e].what.name);
    var s2 := if spawn then EventNew(s1, News(what), []) else s1;
    if spawn { NewsKeeps(s1, News(what)); }
    var r := EventFinished(s, e, w, luck).value;
    FreeEventKeeps(s2, e, r);
    LastChronicle(s1, e, r);
    EvolvesChain(s, s1, r);
    OrderlySame(s1, r);
    OrderlyChain(s, s1, r);
    SameConfigsMove(s1, r);
    SameConfigsChain(s, s1, r);
    UnheldWhenFreed(r, e);
    WokenStill(s, s1, r, s.events[e].blocking);
    assert r.history ==
      s.history + Wakings(e, s.events[e].blocking) + LastActs(e, s1.events[e].failed, what.name, |s1.events|);
  }

  lemma WokenStill(s: Sys, s1: Sys, r: Sys, js: seq<JobId>)
    requires OnlyTheseWoken(s, s1, js) && r.jobs == s1.jobs && |s1.events| <= |r.events|
    requires forall e :: 0 <= e < |s1.events| ==> r.events[e].failed == s1.events[e].failed
    requires forall e :: |s1.events| <= e < |r.events| ==> !r.events[e].failed
    ensures OnlyTheseWoken(s, r, js)
  {
    hide ArrivesAs;
    forall j | j in js ensures GoneOn(s, r, j) {
      assert GoneOn(s, s1, j);
      FirstWoken(s, s1, r, j);
    }
  }

  lemma NewsKeeps(s: Sys, what: Occurrence)
    requires Inv(s) && NoneWaiting(s)
    ensures Inv(EventNew(s, what, [])) && NoneWaiting(EventNew(s, what, []))
  {
    hide Base, JobAtRest;
    NewEventKeeps(s, what);
    var r := EventNew(s, what, []);
    forall k: JobId | LiveJob(r, k) ensures !r.jobs[k].state.Waiting? { assert LiveJob(s, k); }
  }

  /** Nothing refers to an event that has been freed. */
  lemma UnheldWhenFreed(s: Sys, e: EventId)
    requires Inv(s) && e < |s.events| && !s.events[e].live
    ensures Holds(s, e) == 0
  {
    hide Holds;
    assert Blockers(s, e) == Holds(s, e);
  }

  // ---- event_poll ----

  /** What holds between two steps of the supervisor. */
  ghost predicate Between(s: Sys) { Inv(s) && NoneWaiting(s) && Chronicle(s) && NoneFinished(s) }

  /** The first events of the list are being handled, and something holds each of them. */
  ghost predicate Busy(s: Sys, n: nat) {
    forall k :: 0 <= k < n && k < |s.queue| ==>
        LiveEvent(s, s.queue[k]) && s.events[s.queue[k]].progress.Handling? && s.events[s.queue[k]].blockers > 0
  }

  lemma QueuedLive(s: Sys, i: nat)
    requires Inv(s) && i < |s.queue|
    ensures LiveEvent(s, s.queue[i])
  {
  }

  lemma StillNoneFinished(s: Sys, r: Sys, e: EventId)
    requires NoneFinished(s) && Evolves(s, r) && LiveEvent(r, e) && !r.events[e].progress.Finished?
    requires forall x :: 0 <= x < |s.events| && x != e ==> r.events[x].progress == s.events[x].progress
    requires forall x :: |s.events| <= x < |r.events| ==> r.events[x].progress.Pending?
    ensures NoneFinished(r)
  {
    forall x: EventId | LiveEvent(r, x) ensures !r.events[x].progress.Finished? {
      if x < |s.events| { assert LiveEvent(s, x); }
    }
  }

  /** The event is finished: nothing holds it. */
  lemma ToFinished(s: Sys, e: EventId, w: World, luck: Oracle)
    requires Between(s) && LiveEvent(s, e) && s.events[e].progress.Handling? && s.events[e].blockers == 0
    ensures var r := EventFinished(SetEvent(s, e, s.events[e].(progress := Finished)), e, w, luck);
            && r.Ok? && Between(r.value) && Evolves(s, r.value) && SameConfigs(s, r.value) && Orderly(s, r.value)
            && Marks(s, r.value, []) && OnlyFrees(s, r.value, e)
  {
    hide Inv, NoneWaiting, EventFinished, Wakings, LastActs, Orderly, SameConfigs, GoneOn;
    var s1 := SetEvent(s, e, s.events[e].(progress := Finished));
    ProgressedKeeps(s, s1, e);
    FinishedChronicle(s, e, s1);
    forall x: EventId | LiveEvent(s1, x) && x != e ensures !s1.events[x].progress.Finished? { assert LiveEvent(s, x); }
    EventFinishedKeeps(s1, e, w, luck);
    EvolvesChain(s, s1, EventFinished(s1, e, w, luck).value);
    OrderlySame(s, s1);
    OrderlyChain(s, s1, EventFinished(s1, e, w, luck).value);
    SameConfigsMove(s, s1);
    SameConfigsChain(s, s1, EventFinished(s1, e, w, luck).value);
    var woken := WakeAll(s1, e, w, luck, |s1.events[e].blocking|).value;
    FreesOnly(s, EventFinished(s1, e, w, luck).value, e, s1.events[e].blocking, woken.events[e].failed,
      s1.events[e].what.name, |woken.events|);
  }

  /** No event has been taken up, and only this one freed. */
  ghost predicate OnlyFrees(s: Sys, r: Sys, e: EventId) {
    && (forall x: EventId :: Offered(x) in r.history <==> Offered(x) in s.history)
    && (forall x: EventId :: Freed(x) in r.history <==> Freed(x) in s.history || x == e)
  }

  lemma {:induction false} WakingsOnly(e: EventId, js: seq<JobId>)
    ensures forall x: EventId :: Offered(x) !in Wakings(e, js) && Freed(x) !in Wakings(e, js)
  {
    if js != [] { WakingsOnly(e, js[1..]); }
  }

  lemma FreesOnly(s: Sys, r: Sys, e: EventId, js: seq<JobId>, failed: bool, name: string, next: EventId)
    requires r.history == s.history + Wakings(e, js) + LastActs(e, failed, name, next)
    ensures OnlyFrees(s, r, e)
  {
    WakingsOnly(e, js);
  }

  lemma FinishedChronicle(s: Sys, e: EventId, r: Sys)
    requires Chronicle(s) && LiveEvent(s, e) && s.events[e].progress.Handling?
    requires r == SetEvent(s, e, s.events[e].(progress := Finished))
    ensures Chronicle(r) && Evolves(s, r)
  {
  }

  /**
   event_poll: nothing traps, however long it goes on, and when it returns every
   event that is left is being handled and is held by somebody.
   */
  lemma {:induction false} PollKeeps(s: Sys, i: nat, again: bool, turns: nat, w: World, luck: Oracle)
    requires Between(s) && (again || Busy(s, i))
    ensures Poll(s, i, again, turns, w, luck).Ok?
    ensures var p := Poll(s, i, again, turns, w, luck).value;
            && Between(p.sys) && Evolves(s, p.sys) && Orderly(s, p.sys) && Marks(s, p.sys, [])
            && (p.done ==> Busy(p.sys, |p.sys.queue|))
    decreases turns
  {
    hide Inv, NoneWaiting, Chronicle, NoneFinished, EventPending, EventFinished, Evolves, Orderly, Marks;
    EvolvesSelf(s);
    if turns > 0 && i >= |s.queue| && again {
      PollKeeps(s, 0, false, turns - 1, w, luck);
    } else if turns > 0 && i < |s.queue| {
      QueuedLive(s, i);
      var e := s.queue[i];
      var pending := s.events[e].progress.Pending?;
      var s1 := s;
      if pending {
        EventPendingKeeps(s, e, w, luck);
        s1 := EventPending(s, e, w, luck).value;
        StillNoneFinished(s, s1, e);
      } else {
        HandledNow(s, e);
      }
      if s1.events[e].blockers > 0 {
        PollKeeps(s1, i + 1, again || pending, turns - 1, w, luck);
        EvolvesChain(s, s1, Poll(s1, i + 1, again || pending, turns - 1, w, luck).value.sys);
        OrderlyChain(s, s1, Poll(s1, i + 1, again || pending, turns - 1, w, luck).value.sys);
        MarksOn(s, s1, Poll(s1, i + 1, again || pending, turns - 1, w, luck).value.sys);
      } else {
        ToFinished(s1, e, w, luck);
        var s2 := EventFinished(SetEvent(s1, e, s1.events[e].(progress := Finished)), e, w, luck).value;
        PollKeeps(s2, i, true, turns - 1, w, luck);
        EvolvesChain(s, s1, s2);
        EvolvesChain(s, s2, Poll(s2, i, true, turns - 1, w, luck).value.sys);
        OrderlyChain(s, s1, s2);
        MarksOn(s, s1, s2);
        OrderlyChain(s, s2, Poll(s2, i, true, turns - 1, w, luck).value.sys);
        MarksOn(s, s2, Poll(s2, i, true, turns - 1, w, luck).value.sys);
      }
    }
  }

  lemma MarksOn(a: Sys, b: Sys, c: Sys)
    requires Marks(a, b, []) && Marks(b, c, [])
    ensures Marks(a, c, [])
  {
  }

  lemma EvolvesSelf(s: Sys)
    ensures Evolves(s, s) && Orderly(s, s) && Marks(s, s, [])
  {
    OrderlySame(s, s);
  }

  lemma HandledNow(s: Sys, e: EventId)
    requires NoneFinished(s) && LiveEvent(s, e) && !s.events[e].progress.Pending?
    ensures s.events[e].progress.Handling?
  {
  }
}

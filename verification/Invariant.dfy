/** What holds of the whole supervisor between two steps, and how the basic operations keep it. */
module Invariant {
  import opened Wrappers
  import opened Condition
  import opened ConditionEnviron
  import opened JobMachine
  import opened Supervisor
  import opened Ledger
  import opened Lists

  /** A job's blocker lists the job, once, and nothing else does. */
  ghost predicate Linked(s: Sys) {
    && (forall e, j: JobId :: 0 <= e < |s.events| && j in s.events[e].blocking ==>
         LiveJob(s, j) && s.jobs[j].blocker == Some(e))
    && (forall j: JobId :: LiveJob(s, j) && s.jobs[j].blocker.Some? ==>
          LiveEvent(s, s.jobs[j].blocker.value) && j in s.events[s.jobs[j].blocker.value].blocking)
    && (forall e :: 0 <= e < |s.events| ==> Distinct(s.events[e].blocking))
  }

  /** The event list holds exactly the events that have not been freed, in the order in which they were emitted. */
  ghost predicate Queued(s: Sys) {
    && Ascending(s.queue)
    && (forall e :: e in s.queue ==> LiveEvent(s, e))
    && (forall e: EventId :: LiveEvent(s, e) ==> e in s.queue)
  }

  /** One class a name is registered, and every class with instances is. */
  ghost predicate RegisteredOnce(s: Sys) {
    && Distinct(s.registered)
    && (forall c :: c in s.registered ==> LiveClass(s, c))
    && (forall c, d ::
       c in s.registered && d in s.registered && s.classes[c].config.name == s.classes[d].config.name ==> c == d)
    && (forall c :: 0 <= c < |s.classes| && s.classes[c].instances != [] ==> c in s.registered)
  }

  /** Jobs and the instance tables of their classes agree. */
  ghost predicate InstancesAgree(s: Sys) {
    && (forall j: JobId :: LiveJob(s, j) ==> LiveClass(s, s.jobs[j].cls) && j in s.classes[s.jobs[j].cls].instances)
    && (forall c, j: JobId :: 0 <= c < |s.classes| && j in s.classes[c].instances ==>
         LiveJob(s, j) && s.jobs[j].cls == c)
    && (forall c :: 0 <= c < |s.classes| ==> Distinct(s.classes[c].instances))
  }

  ghost predicate FilesAgree(s: Sys) {
    Distinct(s.files) && forall c :: c in s.files ==> LiveClass(s, c) && !s.classes[c].deleted
  }

  ghost predicate SoundTrees(s: Sys) {
    && (forall j :: 0 <= j < |s.jobs| && s.jobs[j].stopOn.Some? ==> Sound(s.jobs[j].stopOn.value))
    && (forall c :: 0 <= c < |s.classes| && s.classes[c].startOn.Some? ==> Sound(s.classes[c].startOn.value))
  }

  predicate InUse(s: Sys, c: Option<ClassId>) { c.Some? && c.value < |s.classes| && s.classes[c.value].instances != [] }

  /** The class registered under the name is that of the best file, unless the registered one has instances. */
  predicate CurrentFor(s: Sys, name: string) {
    var c := Registered(s, name);
    c == Select(s, name) || InUse(s, c)
  }

  ghost predicate Current(s: Sys) { forall name :: CurrentFor(s, name) }

  ghost predicate Base(s: Sys) {
    Balanced(s) && Linked(s) && Queued(s) && RegisteredOnce(s) && InstancesAgree(s) && FilesAgree(s) && SoundTrees(s)
  }

  ghost predicate JobAtRest(s: Sys, j: JobId) {
    LiveJob(s, j) ==> LiveClass(s, s.jobs[j].cls) && JobOk(s.classes[s.jobs[j].cls].config, s.jobs[j])
  }

  ghost predicate OthersAtRest(s: Sys, j: JobId) { forall k: JobId :: k != j ==> JobAtRest(s, k) }

  ghost predicate Inv(s: Sys) { Base(s) && forall k: JobId :: JobAtRest(s, k) }

  /**
   Existing events are left as they are, except that they may lose references and be marked
   as failed; new ones are pending.
   */
  ghost predicate Calm(s: Sys, r: Sys) {
    && |s.events| <= |r.events| && r.history == s.history
    && (forall e :: |s.events| <= e < |r.events| ==> r.events[e].live && r.events[e].progress.Pending?)
    && forall e :: 0 <= e < |s.events| ==>
         && r.events[e].live == s.events[e].live && r.events[e].what == s.events[e].what
         && r.events[e].progress == s.events[e].progress && r.events[e].blocking == s.events[e].blocking
         && r.events[e].blockers <= s.events[e].blockers
  }

  lemma CalmChain(a: Sys, b: Sys, c: Sys)
    requires Calm(a, b) && Calm(b, c)
    ensures Calm(a, c)
  {
  }

  // ---- Lists ----

  lemma {:induction false} WithoutFacts<T(!new)>(xs: seq<T>, x: T)
    ensures forall y :: y in Without(xs, x) <==> y in xs && y != x
    ensures Distinct(xs) ==> Distinct(Without(xs, x))
  {
    if xs != [] {
      WithoutFacts(xs[1..], x);
      assert forall y :: y in xs <==> y == xs[0] || y in xs[1..];
      if Distinct(xs) {
        assert forall i :: 0 < i < |xs| ==> xs[i] != xs[0];
        assert xs[0] !in xs[1..];
        assert Distinct(xs[1..]);
      }
    }
  }

  lemma {:induction false} WithoutAscends(xs: seq<nat>, x: nat)
    requires Ascending(xs)
    ensures Ascending(Without(xs, x)) && forall y :: y in Without(xs, x) ==> y in xs
  {
    if xs != [] {
      WithoutAscends(xs[1..], x);
      var rest := Without(xs[1..], x);
      forall y | y in rest ensures y in xs && xs[0] < y { assert y in xs[1..]; }
      forall i, j | 0 <= i < j < |Without(xs, x)| ensures Without(xs, x)[i] < Without(xs, x)[j] {
        if xs[0] != x && i == 0 { assert rest[j - 1] in rest; }
      }
    }
  }

  // ---- Changes that leave the links alone ----

  ghost predicate SameJobLinks(a: Sys, b: Sys) {
    && |a.jobs| == |b.jobs|
    && forall j :: 0 <= j < |a.jobs| ==>
         a.jobs[j].live == b.jobs[j].live && a.jobs[j].cls == b.jobs[j].cls && a.jobs[j].blocker == b.jobs[j].blocker
  }

  ghost predicate SameEventLinks(a: Sys, b: Sys) {
    && |a.events| == |b.events| && a.queue == b.queue
    && forall e :: 0 <= e < |a.events| ==>
         a.events[e].live == b.events[e].live && a.events[e].blocking == b.events[e].blocking
  }

  ghost predicate SameTables(a: Sys, b: Sys) {
    && a.registered == b.registered && a.files == b.files && |a.classes| == |b.classes|
    && forall c :: 0 <= c < |a.classes| ==> b.classes[c] == a.classes[c].(startOn := b.classes[c].startOn)
  }

  lemma LinksKept(a: Sys, b: Sys)
    requires Linked(a) && SameJobLinks(a, b) && SameEventLinks(a, b)
    ensures Linked(b)
  {
    forall e, k: JobId | 0 <= e < |b.events| && k in b.events[e].blocking
      ensures LiveJob(b, k) && b.jobs[k].blocker == Some(e)
    {
      assert k in a.events[e].blocking;
      assert LiveJob(a, k);
    }
    forall k: JobId | LiveJob(b, k) && b.jobs[k].blocker.Some?
      ensures LiveEvent(b, b.jobs[k].blocker.value) && k in b.events[b.jobs[k].blocker.value].blocking
    {
      assert LiveJob(a, k);
      assert LiveEvent(a, a.jobs[k].blocker.value);
    }
    forall e | 0 <= e < |b.events| ensures Distinct(b.events[e].blocking) { assert Distinct(a.events[e].blocking); }
  }

  lemma QueueKept(a: Sys, b: Sys)
    requires Queued(a) && SameEventLinks(a, b)
    ensures Queued(b)
  {
    forall e | e in b.queue ensures LiveEvent(b, e) { assert LiveEvent(a, e); }
    forall e: EventId | LiveEvent(b, e) ensures e in b.queue { assert LiveEvent(a, e); }
  }

  lemma TablesKept(a: Sys, b: Sys)
    requires RegisteredOnce(a) && InstancesAgree(a) && FilesAgree(a) && SameJobLinks(a, b) && SameTables(a, b)
    ensures RegisteredOnce(b) && InstancesAgree(b) && FilesAgree(b)
  {
    forall c | c in b.registered ensures LiveClass(b, c) { assert LiveClass(a, c); }
    forall j: JobId | LiveJob(b, j) ensures LiveClass(b, b.jobs[j].cls) && j in b.classes[b.jobs[j].cls].instances {
      assert LiveJob(a, j);
      assert LiveClass(a, a.jobs[j].cls);
    }
    forall c, j: JobId | 0 <= c < |b.classes| && j in b.classes[c].instances
      ensures LiveJob(b, j) && b.jobs[j].cls == c
    {
      assert j in a.classes[c].instances;
      assert LiveJob(a, j);
    }
    forall c | 0 <= c < |b.classes|
      ensures Distinct(b.classes[c].instances)
    {
      assert Distinct(a.classes[c].instances);
    }
    forall c | c in b.files ensures LiveClass(b, c) && !b.classes[c].deleted { assert LiveClass(a, c); }
  }

  /** Everything but the balance and the trees. */
  lemma FrameKept(a: Sys, b: Sys)
    requires Base(a) && SameJobLinks(a, b) && SameEventLinks(a, b) && SameTables(a, b)
    requires Balanced(b) && SoundTrees(b)
    ensures Base(b)
  {
    hide Balanced, SoundTrees, Linked, Queued, RegisteredOnce, InstancesAgree, FilesAgree, SameJobLinks, SameEventLinks,
      SameTables;
    LinksKept(a, b);
    QueueKept(a, b);
    TablesKept(a, b);
  }

  lemma OthersKept(a: Sys, b: Sys, j: JobId)
    requires OthersAtRest(a, j) && SameTables(a, b) && |a.jobs| == |b.jobs|
    requires forall k :: 0 <= k < |a.jobs| && k != j ==> b.jobs[k] == a.jobs[k]
    ensures OthersAtRest(b, j)
  {
    forall k: JobId | k != j ensures JobAtRest(b, k) {
      assert JobAtRest(a, k);
    }
  }

  // ---- A change inside one job ----

  lemma LocalChange(s: Sys, j: JobId, job: Job)
    requires Base(s) && LiveJob(s, j) && SameLinks(s.jobs[j], job)
    ensures Base(SetJob(s, j, job)) && Calm(s, SetJob(s, j, job))
    ensures OthersAtRest(s, j) ==> OthersAtRest(SetJob(s, j, job), j)
  {
    hide Linked, Queued, RegisteredOnce, InstancesAgree, FilesAgree, Holds, JobHolds;
    var r := SetJob(s, j, job);
    LocalBalance(s, j, job);
    FrameKept(s, r);
    if OthersAtRest(s, j) { OthersKept(s, r, j); }
  }

  lemma LocalBalance(s: Sys, j: JobId, job: Job)
    requires Balanced(s) && j < |s.jobs| && SameLinks(s.jobs[j], job)
    ensures Balanced(SetJob(s, j, job))
  {
    var r := SetJob(s, j, job);
    forall e: EventId ensures Blockers(r, e) == Holds(r, e) {
      JobHoldsUpdate(s.jobs, j, job, e);
      assert Blockers(s, e) == Holds(s, e);
    }
  }

  lemma JobFinishedKeeps(s: Sys, j: JobId, failed: bool)
    requires Base(s) && LiveJob(s, j)
    ensures JobFinished(s, j, failed).Ok?
    ensures var r := JobFinished(s, j, failed).value;
            && Base(r) && Calm(s, r) && r == s.(events := r.events, jobs := s.jobs[j := s.jobs[j].(blocking := [])])
            && |r.events| == |s.events|
    ensures OthersAtRest(s, j) ==> OthersAtRest(JobFinished(s, j, failed).value, j)
  {
    hide JobFinished, Linked, Queued, RegisteredOnce, InstancesAgree, FilesAgree, Balanced;
    JobFinishedBalanced(s, j, failed);
    FinishedFrame(s, j, failed);
    var r := JobFinished(s, j, failed).value;
    FrameKept(s, r);
    if OthersAtRest(s, j) { OthersKept(s, r, j); }
  }

  // ---- New events ----

  lemma NewEventBalance(s: Sys, what: Occurrence, blocking: seq<JobId>)
    requires Balanced(s)
    ensures Balanced(EventNew(s, what, blocking))
  {
    var r := EventNew(s, what, blocking);
    forall e: EventId ensures Blockers(r, e) == Holds(r, e) {
      assert Blockers(s, e) == Holds(s, e);
    }
  }

  lemma NewEventQueue(s: Sys, what: Occurrence, blocking: seq<JobId>)
    requires Queued(s)
    ensures Queued(EventNew(s, what, blocking))
  {
    var r := EventNew(s, what, blocking);
    forall i | 0 <= i < |s.queue| ensures s.queue[i] < |s.events| { assert s.queue[i] in s.queue; }
    forall e | e in r.queue ensures LiveEvent(r, e) { if e in s.queue { assert LiveEvent(s, e); } }
    forall e: EventId | LiveEvent(r, e) ensures e in r.queue { if e < |s.events| { assert LiveEvent(s, e); } }
  }

  /** An event nobody waits for. */
  lemma NewEventKeeps(s: Sys, what: Occurrence)
    requires Base(s)
    ensures Base(EventNew(s, what, [])) && Calm(s, EventNew(s, what, []))
    ensures forall j: JobId :: OthersAtRest(s, j) ==> OthersAtRest(EventNew(s, what, []), j)
    ensures Inv(s) ==> Inv(EventNew(s, what, []))
  {
    hide Balanced, Queued, RegisteredOnce, InstancesAgree, FilesAgree;
    var r := EventNew(s, what, []);
    NewEventBalance(s, what, []);
    NewEventQueue(s, what, []);
    assert Linked(r) by {
      forall e, k: JobId | 0 <= e < |r.events| && k in r.events[e].blocking
        ensures LiveJob(r, k) && r.jobs[k].blocker == Some(e)
      {
        assert k in s.events[e].blocking;
        assert LiveJob(s, k);
      }
      forall k: JobId | LiveJob(r, k) && r.jobs[k].blocker.Some?
        ensures LiveEvent(r, r.jobs[k].blocker.value) && k in r.events[r.jobs[k].blocker.value].blocking
      {
        assert LiveJob(s, k);
      }
    }
    TablesKept(s, r);
    forall j: JobId | OthersAtRest(s, j) ensures OthersAtRest(r, j) { OthersKept(s, r, j); }
    if Inv(s) {
      forall k: JobId ensures JobAtRest(r, k) { assert JobAtRest(s, k); }
    }
  }

  /** A job emits an event and waits for it. */
  function Waited(s: Sys, j: JobId, what: Occurrence): Sys
    requires j < |s.jobs|
  {
    var s1 := EventNew(s, what, [j]);
    SetJob(s1, j, s1.jobs[j].(blocker := Some(|s.events|)))
  }

  lemma WaitedKeeps(s: Sys, j: JobId, what: Occurrence)
    requires Base(s) && LiveJob(s, j) && s.jobs[j].blocker.None?
    ensures Base(Waited(s, j, what)) && Calm(s, Waited(s, j, what))
    ensures OthersAtRest(s, j) ==> OthersAtRest(Waited(s, j, what), j)
  {
    hide Balanced, Queued, RegisteredOnce, InstancesAgree, FilesAgree;
    var s1, r := EventNew(s, what, [j]), Waited(s, j, what);
    NewEventBalance(s, what, [j]);
    WaitedBalance(s1, j, |s.events|);
    NewEventQueue(s, what, [j]);
    WaitedLinks(s, j, what);
    assert Queued(r) by { QueueKept(s1, r); }
    WaitedTables(s, j, what);
    if OthersAtRest(s, j) { OthersKept(s, r, j); }
  }

  lemma WaitedBalance(s: Sys, j: JobId, e: EventId)
    requires Balanced(s) && j < |s.jobs|
    ensures Balanced(SetJob(s, j, s.jobs[j].(blocker := Some(e))))
  {
    var job := s.jobs[j].(blocker := Some(e));
    var r := SetJob(s, j, job);
    forall x: EventId ensures Blockers(r, x) == Holds(r, x) {
      JobHoldsUpdate(s.jobs, j, job, x);
      assert Blockers(s, x) == Holds(s, x);
    }
  }

  lemma WaitedLinks(s: Sys, j: JobId, what: Occurrence)
    requires Linked(s) && LiveJob(s, j) && s.jobs[j].blocker.None?
    ensures Linked(Waited(s, j, what))
  {
    var r := Waited(s, j, what);
    forall e, k: JobId | 0 <= e < |r.events| && k in r.events[e].blocking
      ensures LiveJob(r, k) && r.jobs[k].blocker == Some(e)
    {
      if e < |s.events| {
        assert k in s.events[e].blocking;
        assert LiveJob(s, k) && s.jobs[k].blocker == Some(e);
      }
    }
    forall k: JobId | LiveJob(r, k) && r.jobs[k].blocker.Some?
      ensures LiveEvent(r, r.jobs[k].blocker.value) && k in r.events[r.jobs[k].blocker.value].blocking
    {
      assert LiveJob(s, k);
      if k != j { assert LiveEvent(s, s.jobs[k].blocker.value); }
    }
  }

  lemma WaitedTables(s: Sys, j: JobId, what: Occurrence)
    requires RegisteredOnce(s) && InstancesAgree(s) && FilesAgree(s) && LiveJob(s, j)
    ensures var r := Waited(s, j, what); RegisteredOnce(r) && InstancesAgree(r) && FilesAgree(r)
  {
    var r := Waited(s, j, what);
    forall c | c in r.registered ensures LiveClass(r, c) { assert LiveClass(s, c); }
    forall k: JobId | LiveJob(r, k) ensures LiveClass(r, r.jobs[k].cls) && k in r.classes[r.jobs[k].cls].instances {
      assert LiveJob(s, k);
    }
    forall c, k: JobId | 0 <= c < |r.classes| && k in r.classes[c].instances
      ensures LiveJob(r, k) && r.jobs[k].cls == c
    {
      assert k in s.classes[c].instances;
      assert LiveJob(s, k);
    }
  }

  // ---- Freeing ----

  lemma FreeJobKeeps(s: Sys, j: JobId)
    requires Base(s) && LiveJob(s, j) && s.jobs[j].blocker.None? && s.jobs[j].blocking == []
    ensures FreeJob(s, j).Ok?
    ensures var r := FreeJob(s, j).value;
            && Base(r) && Calm(s, r) && |r.events| == |s.events|
            && r.registered == s.registered && r.files == s.files
            && |r.jobs| == |s.jobs| && !r.jobs[j].live
            && (forall k :: 0 <= k < |s.jobs| && k != j ==> r.jobs[k] == s.jobs[k])
            && |r.classes| == |s.classes|
            && (forall c :: 0 <= c < |s.classes| ==> r.classes[c] == s.classes[c].(instances := r.classes[c].instances))
    ensures var r, c := FreeJob(s, j).value, s.jobs[j].cls;
            c < |s.classes|
              && r.classes == s.classes[c := s.classes[c].(instances := Without(s.classes[c].instances, j))]
    ensures OthersAtRest(s, j) ==> OthersAtRest(FreeJob(s, j).value, j)
  {
    hide Balanced, FreedUnknown, Linked, Queued, RegisteredOnce, InstancesAgree, FilesAgree, Holds, JobAtRest,
      UnblockAll, Without;
    ClassOfJob(s, j);
    var job := s.jobs[j];
    StopHoldsCovered(s, j);
    BalancedFreed(s);
    UnblockAllOk(s, HeldBy(job.stopOn));
    var s1 := UnblockAll(s, HeldBy(job.stopOn)).value;
    var r := FreeJob(s, j).value;
    FreeJobBalance(s, j, s1, r);
    QueueKept(s, r);
    FreeJobLinks(s, j, r);
    FreeJobTables(s, j, r);
    OnlyBlockersCalm(s, s1, multiset(HeldBy(job.stopOn)));
    if OthersAtRest(s, j) { FreeJobOthers(s, j, r); }
  }

  lemma OnlyBlockersCalm(s: Sys, r: Sys, lost: multiset<EventId>)
    requires OnlyBlockers(s, r) && forall e: EventId :: Blockers(r, e) + lost[e] == Blockers(s, e)
    ensures Calm(s, r)
  {
    forall e: EventId | e < |s.events| ensures r.events[e].blockers <= s.events[e].blockers {
      assert Blockers(r, e) + lost[e] == Blockers(s, e);
    }
  }

  lemma ClassOfJob(s: Sys, j: JobId)
    requires InstancesAgree(s) && LiveJob(s, j)
    ensures LiveClass(s, s.jobs[j].cls) && j in s.classes[s.jobs[j].cls].instances
  {
  }

  lemma BalancedFreed(s: Sys)
    requires Balanced(s)
    ensures FreedUnknown(s)
  {
  }

  lemma StopHoldsCovered(s: Sys, j: JobId)
    requires Balanced(s) && j < |s.jobs|
    ensures forall e :: e in HeldBy(s.jobs[j].stopOn) ==> multiset(HeldBy(s.jobs[j].stopOn))[e] <= Blockers(s, e)
  {
    forall e | e in HeldBy(s.jobs[j].stopOn) ensures multiset(HeldBy(s.jobs[j].stopOn))[e] <= Blockers(s, e) {
      JobHoldsPart(s.jobs, j, e);
      assert Blockers(s, e) == Holds(s, e);
    }
  }

  lemma FreeJobBalance(s: Sys, j: JobId, s1: Sys, r: Sys)
    requires Balanced(s) && j < |s.jobs| && s.jobs[j].blocking == []
    requires FreedUnknown(s1) && OnlyBlockers(s, s1)
    requires forall e: EventId :: Blockers(s1, e) + multiset(HeldBy(s.jobs[j].stopOn))[e] == Blockers(s, e)
    requires r.events == s1.events && |r.jobs| == |s.jobs| && r.jobs == s.jobs[j := r.jobs[j]] && r.jobs[j].stopOn.None?
    requires r.jobs[j].blocking == []
    requires |r.classes| == |s.classes| && forall c :: 0 <= c < |s.classes| ==>
               r.classes[c].startOn == s.classes[c].startOn
    ensures Balanced(r)
  {
    forall e: EventId ensures Blockers(r, e) == Holds(r, e) {
      JobHoldsUpdate(s.jobs, j, r.jobs[j], e);
      SameClassHolds(s.classes, r.classes, e);
      assert Blockers(s, e) == Holds(s, e);
      assert Blockers(s1, e) == Blockers(r, e);
    }
  }

  lemma {:induction false} SameClassHolds(a: seq<JobClass>, b: seq<JobClass>, e: EventId)
    requires |a| == |b| && forall c :: 0 <= c < |a| ==> a[c].startOn == b[c].startOn
    ensures ClassHolds(a, e) == ClassHolds(b, e)
  {
    if a != [] { SameClassHolds(a[..|a| - 1], b[..|b| - 1], e); }
  }

  lemma FreeJobLinks(s: Sys, j: JobId, r: Sys)
    requires Linked(s) && LiveJob(s, j) && s.jobs[j].blocker.None? && SameEventLinks(s, r)
    requires |r.jobs| == |s.jobs| && r.jobs == s.jobs[j := r.jobs[j]] && !r.jobs[j].live
    ensures Linked(r)
  {
    forall e, k: JobId | 0 <= e < |r.events| && k in r.events[e].blocking
      ensures LiveJob(r, k) && r.jobs[k].blocker == Some(e)
    {
      assert k in s.events[e].blocking;
      assert LiveJob(s, k) && s.jobs[k].blocker == Some(e);
      assert k != j;
    }
    forall k: JobId | LiveJob(r, k) && r.jobs[k].blocker.Some?
      ensures LiveEvent(r, r.jobs[k].blocker.value) && k in r.events[r.jobs[k].blocker.value].blocking
    {
      assert LiveJob(s, k);
    }
    forall e | 0 <= e < |r.events| ensures Distinct(r.events[e].blocking) { assert Distinct(s.events[e].blocking); }
  }

  lemma FreeJobTables(s: Sys, j: JobId, r: Sys)
    requires RegisteredOnce(s) && InstancesAgree(s) && FilesAgree(s) && LiveJob(s, j)
    requires |r.jobs| == |s.jobs| && r.jobs == s.jobs[j := r.jobs[j]] && !r.jobs[j].live && r.registered == s.registered
    requires r.files == s.files
    requires var c := s.jobs[j].cls;
             r.classes == s.classes[c := s.classes[c].(instances := Without(s.classes[c].instances, j))]
    ensures RegisteredOnce(r) && InstancesAgree(r) && FilesAgree(r)
  {
    var c0 := s.jobs[j].cls;
    WithoutFacts(s.classes[c0].instances, j);
    forall c | c in r.registered ensures LiveClass(r, c) { assert LiveClass(s, c); }
    forall c | 0 <= c < |r.classes| && r.classes[c].instances != [] ensures c in r.registered {
      assert s.classes[c].instances != [] by {
        if c == c0 { assert j in s.classes[c0].instances; }
      }
    }
    forall k: JobId | LiveJob(r, k) ensures LiveClass(r, r.jobs[k].cls) && k in r.classes[r.jobs[k].cls].instances {
      assert LiveJob(s, k);
    }
    forall c, k: JobId | 0 <= c < |r.classes| && k in r.classes[c].instances
      ensures LiveJob(r, k) && r.jobs[k].cls == c
    {
      assert k in s.classes[c].instances;
      assert LiveJob(s, k) && s.jobs[k].cls == c;
      assert k != j;
    }
    forall c | 0 <= c < |r.classes|
      ensures Distinct(r.classes[c].instances)
    {
      assert Distinct(s.classes[c].instances);
    }
    forall c | c in r.files ensures LiveClass(r, c) && !r.classes[c].deleted { assert LiveClass(s, c); }
  }

  lemma FreeJobOthers(s: Sys, j: JobId, r: Sys)
    requires OthersAtRest(s, j) && |r.jobs| == |s.jobs| && |r.classes| == |s.classes|
    requires forall k :: 0 <= k < |s.jobs| && k != j ==> r.jobs[k] == s.jobs[k]
    requires forall c :: 0 <= c < |s.classes| ==> r.classes[c] == s.classes[c].(instances := r.classes[c].instances)
    ensures OthersAtRest(r, j)
  {
    forall k: JobId | k != j ensures JobAtRest(r, k) { assert JobAtRest(s, k); }
  }

  lemma {:induction false} NamedFound(s: Sys, ids: seq<ClassId>, name: string)
    ensures var r := Named(s, ids, name);
            && (r.Some? ==> r.value in ids && r.value < |s.classes| && s.classes[r.value].config.name == name)
            && (r.None? ==> forall c :: c in ids && c < |s.classes| ==> s.classes[c].config.name != name)
  {
    if ids != [] {
      NamedFound(s, ids[1..], name);
      assert forall c :: c in ids <==> c == ids[0] || c in ids[1..];
    }
  }

  lemma {:induction false} SameNamed(s: Sys, r: Sys, ids: seq<ClassId>, name: string)
    requires |s.classes| == |r.classes| && forall c :: 0 <= c < |s.classes| ==>
               r.classes[c].config == s.classes[c].config
    ensures Named(r, ids, name) == Named(s, ids, name)
  {
    if ids != [] { SameNamed(s, r, ids[1..], name); }
  }

  lemma RegisteredName(s: Sys, c: ClassId)
    requires RegisteredOnce(s) && c in s.registered
    ensures LiveClass(s, c) && Registered(s, s.classes[c].config.name) == Some(c)
  {
    NamedFound(s, s.registered, s.classes[c].config.name);
  }

  /** What registering a class needs: it is alive and its name is free. */
  lemma AddKeeps(s: Sys, best: Option<ClassId>)
    requires RegisteredOnce(s)
    requires best.Some? ==> LiveClass(s, best.value)
    requires best.Some? ==> forall c :: c in s.registered ==>
               s.classes[c].config.name != s.classes[best.value].config.name
    ensures RegisteredOnce(AddClass(s, best))
  {
    if best.Some? {
      var r := AddClass(s, best);
      DistinctAppend(s.registered, best.value);
      forall c | c in r.registered ensures LiveClass(r, c) { if c != best.value { assert c in s.registered; } }
    }
  }

  lemma RemoveKeeps(s: Sys, c: ClassId)
    requires RegisteredOnce(s) && c in s.registered && s.classes[c].instances == []
    ensures RegisteredOnce(s.(registered := Without(s.registered, c)))
    ensures forall d :: d in Without(s.registered, c) ==> s.classes[d].config.name != s.classes[c].config.name
  {
    WithoutFacts(s.registered, c);
    var r := s.(registered := Without(s.registered, c));
    forall d | d in r.registered ensures LiveClass(r, d) { assert d in s.registered; }
    forall d | 0 <= d < |r.classes| && r.classes[d].instances != []
      ensures d in r.registered
    {
      assert d in s.registered;
    }
  }

  /** Only the class registered under this name may be another. */
  ghost predicate Reassigned(s: Sys, r: Sys, name: string) {
    forall n :: n != name ==> Registered(r, n) == Registered(s, n)
  }

  /** Who is registered under a name does not depend on the other names. */
  lemma RegisteredElsewhere(s: Sys, r: Sys, name: string)
    requires RegisteredOnce(s) && RegisteredOnce(r) && r == s.(registered := r.registered)
    requires forall c :: 0 <= c < |s.classes| && s.classes[c].config.name != name ==>
               (c in r.registered <==> c in s.registered)
    ensures Reassigned(s, r, name)
  {
    forall n | n != name ensures Registered(r, n) == Registered(s, n) {
      NamedFound(s, s.registered, n);
      NamedFound(r, r.registered, n);
    }
  }

  /** job_class_reconsider keeps the registry; a class that is gone is registered no more. */
  lemma ReconsiderKeeps(s: Sys, c: ClassId)
    requires Base(s) && LiveClass(s, c)
    ensures Reconsider(s, c).Ok?
    ensures var r := Reconsider(s, c).value;
            && Base(r.sys) && r.sys == s.(registered := r.sys.registered)
            && (r.gone ==> c !in r.sys.registered) && (!r.gone ==> r.sys == s)
    ensures var r, name := Reconsider(s, c).value, s.classes[c].config.name;
            && (r.gone <==> Registered(s, name) != Some(c) || !CurrentFor(s, name))
            && Reassigned(s, r.sys, name)
            && (c in s.registered ==> CurrentFor(r.sys, name))
    ensures forall j: JobId :: OthersAtRest(s, j) ==> OthersAtRest(Reconsider(s, c).value.sys, j)
  {
    hide Balanced, Linked, Queued, SoundTrees, CurrentFor, Reassigned;
    var name := s.classes[c].config.name;
    var best := Select(s, name);
    NamedFound(s, s.files, name);
    NamedFound(s, s.registered, name);
    var r := Reconsider(s, c).value;
    if r.gone && Registered(s, name) != Some(c) {
      assert c !in s.registered;
    } else if r.gone {
      var s1 := s.(registered := Without(s.registered, c));
      RemoveKeeps(s, c);
      WithoutFacts(s.registered, c);
      AddKeeps(s1, best);
    }
    RegistryFrame(s, r.sys);
    forall j: JobId | OthersAtRest(s, j) ensures OthersAtRest(r.sys, j) {
      forall k: JobId | k != j ensures JobAtRest(r.sys, k) { assert JobAtRest(s, k); }
    }
    ReconsiderChooses(s, c);
  }

  /** The best class takes the place of one that has no instances; other names are not concerned. */
  lemma ReconsiderChooses(s: Sys, c: ClassId)
    requires RegisteredOnce(s) && FilesAgree(s) && LiveClass(s, c) && Reconsider(s, c).Ok?
    ensures var r, name := Reconsider(s, c).value, s.classes[c].config.name;
            && (r.gone <==> Registered(s, name) != Some(c) || !CurrentFor(s, name))
            && Reassigned(s, r.sys, name)
            && (c in s.registered ==> CurrentFor(r.sys, name))
  {
    var name := s.classes[c].config.name;
    var best, r := Select(s, name), Reconsider(s, c).value;
    NamedFound(s, s.files, name);
    NamedFound(s, s.registered, name);
    if r.gone && Registered(s, name) == Some(c) {
      var s1 := s.(registered := Without(s.registered, c));
      RemoveKeeps(s, c);
      WithoutFacts(s.registered, c);
      AddKeeps(s1, best);
      RegisteredElsewhere(s, r.sys, name);
      SameNamed(s, r.sys, s.files, name);
      NamedFound(r.sys, r.sys.registered, name);
      if best.Some? { RegisteredName(r.sys, best.value); }
    } else if c in s.registered {
      RegisteredName(s, c);
    }
  }

  lemma RegistryFrame(s: Sys, r: Sys)
    requires Base(s) && r == s.(registered := r.registered) && RegisteredOnce(r)
    ensures Base(r)
  {
    hide RegisteredOnce;
    assert Balanced(r) by {
      forall e: EventId ensures Blockers(r, e) == Holds(r, e) { assert Blockers(s, e) == Holds(s, e); }
    }
    assert Linked(r) by { LinksKept(s, r); }
    assert Queued(r) by { QueueKept(s, r); }
    InstancesFrame(s, r);
  }

  lemma InstancesFrame(s: Sys, r: Sys)
    requires InstancesAgree(s) && FilesAgree(s) && r == s.(registered := r.registered)
    ensures InstancesAgree(r) && FilesAgree(r)
  {
    forall k: JobId | LiveJob(r, k) ensures LiveClass(r, r.jobs[k].cls) && k in r.classes[r.jobs[k].cls].instances {
      assert LiveJob(s, k);
    }
    forall c, k: JobId | 0 <= c < |r.classes| && k in r.classes[c].instances
      ensures LiveJob(r, k) && r.jobs[k].cls == c
    {
      assert k in s.classes[c].instances;
      assert LiveJob(s, k);
    }
    forall c | c in r.files ensures LiveClass(r, c) && !r.classes[c].deleted { assert LiveClass(s, c); }
  }

  /** A class that is neither registered nor used by a file can be freed. */
  lemma FreeClassKeeps(s: Sys, c: ClassId)
    requires Base(s) && LiveClass(s, c) && c !in s.registered && c !in s.files
    ensures FreeClass(s, c).Ok?
    ensures var r := FreeClass(s, c).value;
            && Base(r) && Calm(s, r) && |r.events| == |s.events|
            && r == s.(events := r.events, classes := s.classes[c := s.classes[c].(live := false, startOn := None)])
    ensures forall j: JobId :: OthersAtRest(s, j) ==> OthersAtRest(FreeClass(s, c).value, j)
  {
    hide Balanced, FreedUnknown, Linked, Queued, FilesAgree, Holds, JobAtRest, UnblockAll;
    assert s.classes[c].instances == [];
    var es := HeldBy(s.classes[c].startOn);
    StartHoldsCovered(s, c);
    BalancedFreed(s);
    UnblockAllOk(s, es);
    var s1 := UnblockAll(s, es).value;
    var r := FreeClass(s, c).value;
    FreeClassBalance(s, c, s1, r);
    LinksKept(s, r);
    QueueKept(s, r);
    FreeClassTables(s, c, r);
    OnlyBlockersCalm(s, s1, multiset(es));
    forall j: JobId | OthersAtRest(s, j) ensures OthersAtRest(r, j) { FreeClassOthers(s, c, r, j); }
  }

  lemma StartHoldsCovered(s: Sys, c: ClassId)
    requires Balanced(s) && c < |s.classes|
    ensures forall e :: e in HeldBy(s.classes[c].startOn) ==>
              multiset(HeldBy(s.classes[c].startOn))[e] <= Blockers(s, e)
  {
    forall e | e in HeldBy(s.classes[c].startOn) ensures multiset(HeldBy(s.classes[c].startOn))[e] <= Blockers(s, e) {
      ClassHoldsPart(s.classes, c, e);
      assert Blockers(s, e) == Holds(s, e);
    }
  }

  lemma FreeClassBalance(s: Sys, c: ClassId, s1: Sys, r: Sys)
    requires Balanced(s) && c < |s.classes|
    requires FreedUnknown(s1) && OnlyBlockers(s, s1)
    requires forall e: EventId :: Blockers(s1, e) + multiset(HeldBy(s.classes[c].startOn))[e] == Blockers(s, e)
    requires r == s.(events := s1.events, classes := s.classes[c := s.classes[c].(live := false, startOn := None)])
    ensures Balanced(r)
  {
    forall e: EventId ensures Blockers(r, e) == Holds(r, e) {
      ClassHoldsUpdate(s.classes, c, s.classes[c].(live := false, startOn := None), e);
      assert Blockers(s, e) == Holds(s, e);
      assert Blockers(s1, e) == Blockers(r, e);
    }
  }

  lemma FreeClassTables(s: Sys, c: ClassId, r: Sys)
    requires RegisteredOnce(s) && InstancesAgree(s) && FilesAgree(s)
    requires LiveClass(s, c) && c !in s.registered && c !in s.files
    requires r == s.(events := r.events, classes := s.classes[c := s.classes[c].(live := false, startOn := None)])
    ensures RegisteredOnce(r) && InstancesAgree(r) && FilesAgree(r)
  {
    forall d | d in r.registered ensures LiveClass(r, d) { assert LiveClass(s, d); }
    forall k: JobId | LiveJob(r, k) ensures LiveClass(r, r.jobs[k].cls) && k in r.classes[r.jobs[k].cls].instances {
      assert LiveJob(s, k);
      assert s.classes[s.jobs[k].cls].instances != [];
    }
    forall d, k: JobId | 0 <= d < |r.classes| && k in r.classes[d].instances
      ensures LiveJob(r, k) && r.jobs[k].cls == d
    {
      assert k in s.classes[d].instances;
      assert LiveJob(s, k);
    }
    forall d | 0 <= d < |r.classes|
      ensures Distinct(r.classes[d].instances)
    {
      assert Distinct(s.classes[d].instances);
    }
    forall d | d in r.files ensures LiveClass(r, d) && !r.classes[d].deleted { assert LiveClass(s, d); }
  }

  lemma FreeClassOthers(s: Sys, c: ClassId, r: Sys, j: JobId)
    requires OthersAtRest(s, j) && InstancesAgree(s) && InstancesAgree(r)
    requires c < |s.classes|
    requires r == s.(events := r.events, classes := s.classes[c := s.classes[c].(live := false, startOn := None)])
    ensures OthersAtRest(r, j)
  {
    forall k: JobId | k != j ensures JobAtRest(r, k) {
      assert JobAtRest(s, k);
      if LiveJob(r, k) { ClassOfJob(r, k); }
    }
  }

  /**
   The end of an instance: a deleted class goes with its last instance and only then, and
   the registry is up to date again.
   */
  lemma RetireKeeps(s: Sys, j: JobId)
    requires Base(s) && LiveJob(s, j) && s.jobs[j].blocker.None? && s.jobs[j].blocking == []
    ensures Retire(s, j).Ok?
    ensures var r := Retire(s, j).value;
            && Base(r) && Calm(s, r) && |r.events| == |s.events| && r.files == s.files
            && |r.jobs| == |s.jobs| && !r.jobs[j].live
            && (forall k :: 0 <= k < |s.jobs| && k != j ==> r.jobs[k] == s.jobs[k])
            && SameConfigs(s, r)
    ensures var r, c := Retire(s, j).value, s.jobs[j].cls;
            && c < |r.classes| == |s.classes| && r.classes[c].instances == Without(s.classes[c].instances, j)
            && (LiveClass(r, c) <==> !s.classes[c].deleted || r.classes[c].instances != [])
    ensures Current(s) ==> Current(Retire(s, j).value)
    ensures OthersAtRest(s, j) ==> OthersAtRest(Retire(s, j).value, j)
  {
    hide Base, JobAtRest, OthersAtRest, Retire, Calm, Current, Without;
    RetireFrame(s, j);
    RetireSettles(s, j);
  }

  lemma RetireFrame(s: Sys, j: JobId)
    requires Base(s) && LiveJob(s, j) && s.jobs[j].blocker.None? && s.jobs[j].blocking == []
    ensures Retire(s, j).Ok?
    ensures var r := Retire(s, j).value;
            && Base(r) && Calm(s, r) && |r.events| == |s.events| && r.files == s.files
            && |r.jobs| == |s.jobs| && !r.jobs[j].live
            && (forall k :: 0 <= k < |s.jobs| && k != j ==> r.jobs[k] == s.jobs[k])
            && SameConfigs(s, r)
    ensures OthersAtRest(s, j) ==> OthersAtRest(Retire(s, j).value, j)
  {
    hide Balanced, Linked, Queued, SoundTrees, JobAtRest, OthersAtRest, FreeJob, Reconsider, FreeClass, Calm,
      CurrentFor, Reassigned, RegisteredOnce, InstancesAgree;
    ClassOfJob(s, j);
    var c := s.jobs[j].cls;
    FreeJobKeeps(s, j);
    var s1 := FreeJob(s, j).value;
    assert LiveClass(s1, c);
    ReconsiderKeeps(s1, c);
    var r1 := Reconsider(s1, c).value;
    assert Calm(s1, r1.sys) by { SameEventsCalm(s1, r1.sys); }
    CalmChain(s, s1, r1.sys);
    if r1.sys.classes[c].deleted && r1.gone {
      assert c !in r1.sys.files;
      FreeClassKeeps(r1.sys, c);
      CalmChain(s, r1.sys, FreeClass(r1.sys, c).value);
    }
  }

  lemma RetireSettles(s: Sys, j: JobId)
    requires Base(s) && LiveJob(s, j) && s.jobs[j].blocker.None? && s.jobs[j].blocking == [] && Retire(s, j).Ok?
    ensures var r, c := Retire(s, j).value, s.jobs[j].cls;
            && c < |r.classes| == |s.classes| && r.classes[c].instances == Without(s.classes[c].instances, j)
            && (LiveClass(r, c) <==> !s.classes[c].deleted || r.classes[c].instances != [])
    ensures Current(s) ==> Current(Retire(s, j).value)
  {
    hide Balanced, Linked, Queued, SoundTrees, JobAtRest, OthersAtRest, FreeJob, Reconsider, FreeClass, Calm,
      Current, CurrentFor, Reassigned, Without;
    ClassOfJob(s, j);
    var c := s.jobs[j].cls;
    var name := s.classes[c].config.name;
    assert c in s.registered;
    FreeJobKeeps(s, j);
    var s1 := FreeJob(s, j).value;
    ReconsiderKeeps(s1, c);
    var r1 := Reconsider(s1, c).value;
    RegisteredName(s1, c);
    if s.classes[c].deleted { DeletedStays(s1, c); }
    if Current(s) { CurrentElsewhere(s, s1, r1.sys, name); }
    if r1.sys.classes[c].deleted && r1.gone {
      assert c !in r1.sys.files;
      FreeClassKeeps(r1.sys, c);
      if Current(s) { CurrentTables(r1.sys, FreeClass(r1.sys, c).value); }
    }
  }

  /** A registered class whose file is gone is current only as long as it has instances. */
  lemma DeletedStays(s: Sys, c: ClassId)
    requires RegisteredOnce(s) && FilesAgree(s) && LiveClass(s, c) && c in s.registered && s.classes[c].deleted
    ensures CurrentFor(s, s.classes[c].config.name) <==> s.classes[c].instances != []
  {
    RegisteredName(s, c);
    NamedFound(s, s.files, s.classes[c].config.name);
  }

  /** Being current is a matter of the tables, the names and who has instances. */
  lemma CurrentTables(s: Sys, r: Sys)
    requires Current(s) && r.registered == s.registered && r.files == s.files && |r.classes| == |s.classes|
    requires forall c :: 0 <= c < |s.classes| ==>
               r.classes[c].config == s.classes[c].config
                 && (s.classes[c].instances != [] ==> r.classes[c].instances != [])
    ensures Current(r)
  {
    forall name ensures CurrentFor(r, name) {
      assert CurrentFor(s, name);
      SameNamed(s, r, s.registered, name);
      SameNamed(s, r, s.files, name);
    }
  }

  /** One class has lost an instance and its name has been reconsidered. */
  lemma CurrentElsewhere(s: Sys, s1: Sys, r: Sys, name: string)
    requires Current(s) && s1.registered == s.registered && s1.files == s.files && |s1.classes| == |s.classes|
    requires RegisteredOnce(s)
    requires forall c :: 0 <= c < |s.classes| ==>
               && s1.classes[c].config == s.classes[c].config
               && (s.classes[c].config.name != name ==> s1.classes[c].instances == s.classes[c].instances)
    requires r == s1.(registered := r.registered) && Reassigned(s1, r, name) && CurrentFor(r, name)
    ensures Current(r)
  {
    forall n ensures CurrentFor(r, n) {
      if n != name {
        assert CurrentFor(s, n);
        SameNamed(s, s1, s.registered, n);
        SameNamed(s, r, s.files, n);
        NamedFound(s, s.registered, n);
      }
    }
  }

  lemma SameEventsCalm(s: Sys, r: Sys)
    requires r.events == s.events && r.history == s.history
    ensures Calm(s, r)
  {
  }

  /** Classes keep their configuration; a start condition may only be dropped with its class. */
  ghost predicate SameConfigs(s: Sys, r: Sys) {
    && |r.classes| == |s.classes|
    && forall c :: 0 <= c < |s.classes| ==>
         && r.classes[c].config == s.classes[c].config && (r.classes[c].live ==> s.classes[c].live)
         && (r.classes[c].startOn == s.classes[c].startOn || r.classes[c].startOn.None?)
  }
}

/** Who holds which event, and what each operation on references does to the balance. */
module Ledger {
  import opened Wrappers
  import opened Condition
  import opened JobMachine
  import opened Supervisor

  /** The references one job holds on the event: the leaves of its stop condition and its blocking list. */
  function JobHold(job: Job, e: EventId): nat {
    multiset(HeldBy(job.stopOn))[e] + multiset(job.blocking)[e]
  }

  function ClassHold(cls: JobClass, e: EventId): nat { multiset(HeldBy(cls.startOn))[e] }

  function JobHolds(jobs: seq<Job>, e: EventId): nat {
    if jobs == [] then 0 else JobHolds(jobs[..|jobs| - 1], e) + JobHold(jobs[|jobs| - 1], e)
  }

  function ClassHolds(classes: seq<JobClass>, e: EventId): nat {
    if classes == [] then 0 else ClassHolds(classes[..|classes| - 1], e) + ClassHold(classes[|classes| - 1], e)
  }

  /** All references held on the event. */
  function Holds(s: Sys, e: EventId): nat { JobHolds(s.jobs, e) + ClassHolds(s.classes, e) }

  /** The references the event itself knows of. */
  function Blockers(s: Sys, e: EventId): nat { if e < |s.events| then s.events[e].blockers else 0 }

  /** Freed events are known to nobody. */
  ghost predicate FreedUnknown(s: Sys) { forall e :: 0 <= e < |s.events| && !s.events[e].live ==>
      s.events[e].blockers == 0 }

  /** Each event's blocker count is the number of references held on it. */
  ghost predicate Balanced(s: Sys) {
    FreedUnknown(s) && forall e: EventId :: Blockers(s, e) == Holds(s, e)
  }

  // ---- Sums over the heaps ----

  lemma {:induction false} JobHoldsUpdate(jobs: seq<Job>, j: nat, job: Job, e: EventId)
    requires j < |jobs|
    ensures JobHolds(jobs[j := job], e) + JobHold(jobs[j], e) == JobHolds(jobs, e) + JobHold(job, e)
  {
    hide JobHold;
    var n := |jobs| - 1;
    if j == n {
      assert jobs[j := job][..n] == jobs[..n];
    } else {
      assert jobs[j := job][..n] == jobs[..n][j := job];
      JobHoldsUpdate(jobs[..n], j, job, e);
    }
  }

  lemma {:induction false} JobHoldsPart(jobs: seq<Job>, j: nat, e: EventId)
    requires j < |jobs|
    ensures JobHold(jobs[j], e) <= JobHolds(jobs, e)
  {
    hide JobHold;
    if j < |jobs| - 1 { JobHoldsPart(jobs[..|jobs| - 1], j, e); }
  }

  lemma {:induction false} ClassHoldsUpdate(classes: seq<JobClass>, c: nat, cls: JobClass, e: EventId)
    requires c < |classes|
    ensures ClassHolds(classes[c := cls], e) + ClassHold(classes[c], e) == ClassHolds(classes, e) + ClassHold(cls, e)
  {
    hide ClassHold;
    var n := |classes| - 1;
    if c == n {
      assert classes[c := cls][..n] == classes[..n];
    } else {
      assert classes[c := cls][..n] == classes[..n][c := cls];
      ClassHoldsUpdate(classes[..n], c, cls, e);
    }
  }

  lemma {:induction false} ClassHoldsPart(classes: seq<JobClass>, c: nat, e: EventId)
    requires c < |classes|
    ensures ClassHold(classes[c], e) <= ClassHolds(classes, e)
  {
    hide ClassHold;
    if c < |classes| - 1 { ClassHoldsPart(classes[..|classes| - 1], c, e); }
  }

  lemma JobHoldsAppend(jobs: seq<Job>, job: Job, e: EventId)
    ensures JobHolds(jobs + [job], e) == JobHolds(jobs, e) + JobHold(job, e)
  {
    assert (jobs + [job])[..|jobs|] == jobs;
  }

  lemma ClassHoldsAppend(classes: seq<JobClass>, cls: JobClass, e: EventId)
    ensures ClassHolds(classes + [cls], e) == ClassHolds(classes, e) + ClassHold(cls, e)
  {
    assert (classes + [cls])[..|classes|] == classes;
  }

  // ---- Blocking and unblocking a list of events ----

  /** The events are the same but for their blocker counts. */
  ghost predicate OnlyBlockers(a: Sys, b: Sys) {
    && b == a.(events := b.events) && |b.events| == |a.events|
    && forall e :: 0 <= e < |a.events| ==> b.events[e] == a.events[e].(blockers := b.events[e].blockers)
  }

  lemma {:induction false} UnblockAllOk(s: Sys, es: seq<EventId>)
    requires FreedUnknown(s)
    requires forall e :: e in es ==> multiset(es)[e] <= Blockers(s, e)
    ensures UnblockAll(s, es).Ok?
    ensures var r := UnblockAll(s, es).value;
            && OnlyBlockers(s, r) && FreedUnknown(r)
            && forall e: EventId :: Blockers(r, e) + multiset(es)[e] == Blockers(s, e)
    decreases |es|
  {
    if es != [] {
      var e0 := es[0];
      assert es == [e0] + es[1..];
      assert multiset(es) == multiset{e0} + multiset(es[1..]);
      assert multiset(es)[e0] >= 1 && e0 in es;
      var s1 := Unblock(s, e0).value;
      forall e | e in es[1..] ensures multiset(es[1..])[e] <= Blockers(s1, e) {
        assert e in es;
      }
      UnblockAllOk(s1, es[1..]);
    }
  }

  lemma {:induction false} BlockAllOk(s: Sys, es: seq<EventId>)
    requires FreedUnknown(s)
    requires forall e :: e in es ==> LiveEvent(s, e)
    ensures BlockAll(s, es).Ok?
    ensures var r := BlockAll(s, es).value;
            && OnlyBlockers(s, r) && FreedUnknown(r)
            && forall e: EventId :: Blockers(r, e) == Blockers(s, e) + multiset(es)[e]
    decreases |es|
  {
    if es != [] {
      var e0 := es[0];
      assert es == [e0] + es[1..];
      assert multiset(es) == multiset{e0} + multiset(es[1..]);
      var s1 := Block(s, e0, 1).value;
      forall e | e in es[1..] ensures LiveEvent(s1, e) {
        assert e in es;
      }
      BlockAllOk(s1, es[1..]);
    }
  }

  /** A held event is alive. */
  lemma HeldIsLive(s: Sys, e: EventId)
    requires Balanced(s) && Holds(s, e) > 0
    ensures LiveEvent(s, e)
  {
    assert Blockers(s, e) == Holds(s, e);
  }

  // ---- job_finished ----

  /** The events after job_finished: the job's blocks are gone, and failed ones are marked. */
  ghost predicate FinishedEvents(s: Sys, r: Sys, es: seq<EventId>, failed: bool) {
    && |r.events| == |s.events|
    && forall e :: 0 <= e < |s.events| ==>
         && r.events[e] ==
            s.events[e].(blockers := r.events[e].blockers, failed := s.events[e].failed || (failed && e in es))
         && r.events[e].blockers + multiset(es)[e] == s.events[e].blockers
  }

  lemma {:induction false} JobFinishedEvents(s: Sys, j: JobId, failed: bool)
    requires LiveJob(s, j) && FreedUnknown(s)
    requires forall e :: e in s.jobs[j].blocking ==> multiset(s.jobs[j].blocking)[e] <= Blockers(s, e)
    ensures JobFinished(s, j, failed).Ok?
    ensures FinishedEvents(s, JobFinished(s, j, failed).value, s.jobs[j].blocking, failed)
    decreases |s.jobs[j].blocking|
  {
    var es := s.jobs[j].blocking;
    if es != [] {
      hide FinishedEvents;
      var e0 := es[0];
      assert es == [e0] + es[1..];
      assert multiset(es) == multiset{e0} + multiset(es[1..]);
      assert multiset(es)[e0] >= 1 && e0 in es;
      var s0 := if failed then MarkFailed(s, e0) else s;
      var s1 := Unblock(s0, e0).value;
      var s2 := SetJob(s1, j, s.jobs[j].(blocking := es[1..]));
      forall e | e in es[1..] ensures multiset(es[1..])[e] <= Blockers(s2, e) {
        assert e in es;
      }
      JobFinishedEvents(s2, j, failed);
      var r := JobFinished(s2, j, failed).value;
      FinishStep(s, s2, r, es, failed);
    }
  }

  lemma FinishStep(s: Sys, s2: Sys, r: Sys, es: seq<EventId>, failed: bool)
    requires es != [] && es[0] < |s.events| && s.events[es[0]].blockers > 0
    requires |s2.events| == |s.events|
    requires forall e :: 0 <= e < |s.events| ==>
               s2.events[e] == if e != es[0] then s.events[e]
                               else s.events[e].(blockers := s.events[e].blockers - 1, failed := s.events[e].failed
                                 || failed)
    requires FinishedEvents(s2, r, es[1..], failed)
    ensures FinishedEvents(s, r, es, failed)
  {
    assert es == [es[0]] + es[1..];
    assert multiset(es) == multiset{es[0]} + multiset(es[1..]);
    forall e | 0 <= e < |s.events|
      ensures r.events[e] ==
              s.events[e].(blockers := r.events[e].blockers, failed := s.events[e].failed || (failed && e in es))
      ensures r.events[e].blockers + multiset(es)[e] == s.events[e].blockers
    {
      assert e in es <==> e == es[0] || e in es[1..];
    }
  }

  /** job_finished keeps the balance. */
  lemma JobFinishedBalanced(s: Sys, j: JobId, failed: bool)
    requires Balanced(s) && LiveJob(s, j)
    ensures JobFinished(s, j, failed).Ok? && Balanced(JobFinished(s, j, failed).value)
    ensures FinishedEvents(s, JobFinished(s, j, failed).value, s.jobs[j].blocking, failed)
  {
    hide JobFinished;
    var es := s.jobs[j].blocking;
    forall e | e in es ensures multiset(es)[e] <= Blockers(s, e) {
      JobHoldsPart(s.jobs, j, e);
      assert Blockers(s, e) == Holds(s, e);
    }
    JobFinishedEvents(s, j, failed);
    var r := JobFinished(s, j, failed).value;
    FinishedFrame(s, j, failed);
    forall e: EventId ensures Blockers(r, e) == Holds(r, e) {
      JobHoldsUpdate(s.jobs, j, s.jobs[j].(blocking := []), e);
      assert Blockers(s, e) == Holds(s, e);
      JobHoldsPart(s.jobs, j, e);
    }
  }

  lemma FinishedFrame(s: Sys, j: JobId, failed: bool)
    requires JobFinished(s, j, failed).Ok?
    ensures j < |s.jobs|
    ensures var r := JobFinished(s, j, failed).value;
            r == s.(events := r.events, jobs := s.jobs[j := s.jobs[j].(blocking := [])])
  {
  }
}

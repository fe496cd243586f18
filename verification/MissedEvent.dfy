/** Why the second of two classes that wait for one event does not get it. */
module MissedEvent {
  import opened Wrappers
  import opened Environ
  import opened Condition
  import opened ConditionEnviron
  import opened Supervisor
  import opened SupervisorSteps
  import opened Reach
  import opened Witness
  import Expansion

  /** The instance of the first class cannot be named. */
  lemma FirstHasNone(s: Sys, w: World)
    requires |s.classes| > 0 && |s.events| == 1 && s.events[0].what == GO && w == NOTHING
    requires s.classes[0] == Expecting(FIRST)
    ensures Nameless(s, 0, 0, w)
  {
    hide Expansion.Expand, Collected, ClassEnvironment, Handle, Taken;
    LeafMet();
    NoName(s, MET);
  }

  /** The event would make the second class's condition true. */
  lemma SecondTrips(s: Sys, w: World)
    requires |s.classes| > 1 && |s.events| == 1 && s.events[0].what == GO && w == NOTHING
    requires s.classes[1] == Expecting(SECOND)
    ensures Trips(s.classes[1].startOn, 0, StartHit(s, 0, w))
  {
    hide Handle, Taken;
    LeafMet();
  }

  /** Its instance has a name. */
  lemma SecondHasOne(s: Sys, w: World)
    requires |s.classes| > 1 && |s.events| == 1 && s.events[0].what == GO && w == NOTHING
    requires s.classes[1] == Expecting(SECOND)
    ensures !Nameless(s, 0, 1, w)
  {
    hide Expansion.Expand, Collected, ClassEnvironment, Handle, Taken;
    LeafMet();
    PlainName(Collected(ClassEnvironment(SECOND, w), MET, Described(s.events), "UPSTART_EVENTS", w.outer));
  }

  lemma PlainName(env: Env)
    ensures Expansion.Expand("", env) == Ok("")
  {
  }
}

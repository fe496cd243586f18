/** Two short runs of one class without conditions, down to the states in which the expectations fail. */
module Witness {
  import opened Wrappers
  import opened Environ
  import opened Condition
  import opened ConditionEnviron
  import opened Respawn
  import opened JobMachine
  import opened Supervisor
  import opened SupervisorSteps
  import Expansion

  const CHANCE := Luck(true, true)
  const LUCK: Oracle := (j, n) => CHANCE

  /** A class with these processes and nothing else. */
  function Plain(processes: set<Process>): Config {
    Config("plain", "", [], processes, false, false, Limit(0, 0), [], true, None)
  }

  function Class(config: Config, instances: seq<JobId>): JobClass { JobClass(true, config, None, instances, false) }

  /** The file has been read. */
  function Loaded(config: Config): Sys { Sys([], [Class(config, [])], [], [], [0], [0], []) }

  lemma FileLoads(processes: set<Process>, w: World)
    ensures Step(INITIAL, FileAppeared(0, Plain(processes), None), w) == Ok(Loaded(Plain(processes)))
  {
    var config := Plain(processes);
    var n := NewClass(INITIAL, 0, config, None);
    assert n == Sys([], [Class(config, [])], [], [], [], [0], []) by {
      assert INITIAL.files[..0] + [0] + INITIAL.files[0..] == [0];
    }
    assert Select(n, "plain") == Some(0);
    assert Registered(n, "plain") == None;
    assert n.registered + [0] == [0];
  }

  /** A new job with the environment it is to have. */
  function Fresher(config: Config, w: World): Job {
    NewJob(0, "", config).(startEnv := Some(Appended(ClassEnvironment(config, w), [], true, w.outer)))
  }

  /** The job about to emit its starting event. */
  function Starter(config: Config, w: World): Job {
    Fresher(config, w).(goal := Start, state := Starting, env := Fresher(config, w).startEnv.value, startEnv := None)
  }

  function Notice(config: Config,
    w: World): Occurrence { Occurrence("starting", w.eventEnv(config, Starter(config, w), false)) }

  /** The job waits for its starting event. */
  function Launched(config: Config, w: World): Sys {
    Sys([Starter(config, w).(blocker := Some(0))], [Class(config, [0])],
      [Event(true, Notice(config, w), Pending, false, 0, [0])], [0], [0], [0], [])
  }

  lemma InstanceMade(config: Config)
    ensures FindOrCreate(Loaded(config), 0, "") ==
            Ok(Found(Sys([NewJob(0, "", config)], [Class(config, [0])], [], [], [0], [0], []), 0))
  {
    var s := Loaded(config);
    assert s.jobs + [NewJob(0, "", config)] == [NewJob(0, "", config)];
    assert s.classes[0].instances + [0] == [0];
    assert s.classes[0 := Class(config, [0])] == [Class(config, [0])];
  }

  lemma InstanceBegins(processes: set<Process>, w: World)
    ensures var config := Plain(processes);
            var s := Sys([NewJob(0, "", config)], [Class(config, [0])], [], [], [0], [0], []);
            StartInstance(s, 0, Fresher(config, w).startEnv, w, LUCK) == Ok(Launched(config, w))
  {
    hide Appended, ClassEnvironment;
    var config := Plain(processes);
    var s := Sys([NewJob(0, "", config)], [Class(config, [0])], [], [], [0], [0], []);
    var s1 := Sys([Fresher(config, w)], [Class(config, [0])], [], [], [0], [0], []);
    assert SetJob(s, 0, Fresher(config, w)) == s1;
    assert JobFinished(s1, 0, false) == Ok(s1);
    var begun := Fresher(config, w).(goal := Start);
    var s2 := Sys([begun], [Class(config, [0])], [], [], [0], [0], []);
    assert SetJob(s1, 0, begun) == s2 == SetJob(s2, 0, begun);
    StartingAnnounced(config, w, s2);
  }

  lemma StartingAnnounced(config: Config, w: World, s: Sys)
    requires s == Sys([Fresher(config, w).(goal := Start)], [Class(config, [0])], [], [], [0], [0], [])
    ensures AdvanceJob(s, 0, w, LUCK) == Ok(Launched(config, w))
  {
    hide Appended, ClassEnvironment;
    assert SetJob(s, 0, s.jobs[0]) == s;
    var rest := Rest(Starter(config, w), EmitAndBlock);
    assert Settle(config, s.jobs[0], Starting, CHANCE) == Ok(rest);
    var s1 := Sys([Starter(config, w)], [Class(config, [0])], [], [], [0], [0], []);
    assert SetJob(s, 0, rest.job) == s1;
    assert s1.events + [Event(true, Notice(config, w), Pending, false, 0, [0])] ==
      [Event(true, Notice(config, w), Pending, false, 0, [0])];
    assert s1.queue + [0] == [0];
    assert [Starter(config, w)][0 := Starter(config, w).(blocker := Some(0))] ==
      [Starter(config, w).(blocker := Some(0))];
  }

  lemma ClassStarts(processes: set<Process>, w: World)
    ensures Step(Loaded(Plain(processes)), StartClassCommand(0, [], LUCK), w) == Ok(Launched(Plain(processes), w))
  {
    hide Appended, ClassEnvironment, FindOrCreate, StartInstance;
    var config := Plain(processes);
    assert Expansion.Expand("", Fresher(config, w).startEnv.value) == Ok("");
    InstanceMade(config);
    InstanceBegins(processes, w);
  }

  function Heard(config: Config, w: World, progress: Progress, blocking: seq<JobId>, live: bool): Event {
    Event(live, Notice(config, w), progress, false, 0, blocking)
  }

  /** The event has been offered, and nobody took it. */
  function Handled(config: Config, w: World): Sys {
    Sys([Starter(config, w).(blocker := Some(0))], [Class(config, [0])], [Heard(config, w, Handling, [0], true)], [0],
      [0], [0], [Offered(0)])
  }

  lemma NobodyTakesIt(processes: set<Process>, w: World)
    ensures EventPending(Launched(Plain(processes), w), 0, w, LUCK) == Ok(Handled(Plain(processes), w))
  {
    hide Appended, ClassEnvironment;
    var config := Plain(processes);
    var s, r := Launched(config, w), Handled(config, w);
    assert Noted(SetEvent(s, 0, s.events[0].(progress := Handling)), Offered(0)) == r by {
      assert s.events[0 := Heard(config, w, Handling, [0], true)] == r.events;
      assert s.history + [Offered(0)] == r.history;
    }
    assert OfferStop(r, 0, 0, w, LUCK) == Ok(r);
    assert [0][1..] == [];
    assert OfferStops(r, 0, [0], w, LUCK) == OfferStops(r, 0, [], w, LUCK) == Ok(r);
    assert OfferStart(r, 0, 0, w, LUCK) == Ok(Inducted(r, true));
    assert OfferAll(r, 0, [0], w, LUCK) == OfferAll(r, 0, [], w, LUCK);
  }

  /** The event is finished and the job has moved on. */
  function Moved(config: Config, w: World, job: Job): Sys {
    Sys([job], [Class(config, [0])], [Heard(config, w, Finished, [], false)], [], [0], [0],
      [Offered(0), Woken(0, 0), Freed(0)])
  }

  lemma StartingLeft(config: Config, w: World, s: Sys, job: Job)
    requires Settle(config, Starter(config, w), SecuritySpawning, CHANCE) == Ok(Rest(job, Nothing)) && job.live
    requires |s.jobs| == 1 && s.jobs[0] == Starter(config, w) && s.classes == [Class(config, [0])]
    ensures AdvanceJob(s, 0, w, LUCK) == Ok(s.(jobs := [job]))
  {
    hide Settle;
    assert SetJob(s, 0, s.jobs[0]) == s;
    assert s.jobs[0 := job] == [job];
  }

  lemma JobWoken(processes: set<Process>, w: World, job: Job)
    requires Settle(Plain(processes), Starter(Plain(processes), w), SecuritySpawning, CHANCE) == Ok(Rest(job, Nothing))
    requires job.live
    ensures var config := Plain(processes);
            var s := Handled(config, w);
            EventFinished(s.(events := [Heard(config, w, Finished, [0], true)]), 0, w, LUCK) ==
              Ok(Moved(config, w, job))
  {
    hide Settle, AdvanceJob, Appended, ClassEnvironment;
    var config := Plain(processes);
    var s := Handled(config, w).(events := [Heard(config, w, Finished, [0], true)]);
    var s1 := Noted(SetEvent(s, 0, s.events[0].(blocking := s.events[0].blocking[1..])), Woken(0, 0));
    assert s.events[0].blocking[1..] == [];
    assert s1.events == [Heard(config, w, Finished, [], true)];
    var s2 := SetJob(s1, 0, s1.jobs[0].(blocker := None));
    assert s2.jobs[0] == Starter(config, w);
    StartingLeft(config, w, s2, job);
    var s3 := s2.(jobs := [job]);
    assert WakeAll(s3, 0, w, LUCK, 0) == Ok(s3);
    assert WakeAll(s, 0, w, LUCK, 1) == Ok(s3);
    assert Without([0], 0) == [];
    assert s3.events[0 := Heard(config, w, Finished, [], false)] == [Heard(config, w, Finished, [], false)];
    assert s3.history + [Freed(0)] == [Offered(0), Woken(0, 0), Freed(0)];
  }

  /** Reading the file, starting the class and polling takes the job out of starting. */
  lemma EventsPolled(processes: set<Process>, w: World, job: Job)
    requires Settle(Plain(processes), Starter(Plain(processes), w), SecuritySpawning, CHANCE) == Ok(Rest(job, Nothing))
    requires job.live
    ensures Step(Launched(Plain(processes), w), PollEvents(3, LUCK), w) == Ok(Moved(Plain(processes), w, job))
  {
    hide Settle, EventPending, EventFinished, Appended, ClassEnvironment;
    var config := Plain(processes);
    NobodyTakesIt(processes, w);
    JobWoken(processes, w, job);
    var s, r := Handled(config, w), Moved(config, w, job);
    assert SetEvent(s, 0, s.events[0].(progress := Finished)) ==
      s.(events := [Heard(config, w, Finished, [0], true)]) by {
      assert s.events[0 := Heard(config, w, Finished, [0], true)] == [Heard(config, w, Finished, [0], true)];
    }
    assert Poll(r, 0, false, 1, w, LUCK) == Ok(Polled(r, true));
    assert Poll(r, 0, true, 2, w, LUCK) == Ok(Polled(r, true));
    assert Poll(Launched(config, w), 0, false, 3, w, LUCK) == Poll(r, 0, true, 2, w, LUCK);
  }

  /** The three inputs. */
  function Opening(processes: set<Process>): seq<Input> {
    [FileAppeared(0, Plain(processes), None), StartClassCommand(0, [], LUCK), PollEvents(3, LUCK)]
  }

  lemma OpeningRuns(processes: set<Process>, w: World, job: Job)
    requires Settle(Plain(processes), Starter(Plain(processes), w), SecuritySpawning, CHANCE) == Ok(Rest(job, Nothing))
    requires job.live
    ensures Run(Opening(processes), w) == Ok(Moved(Plain(processes), w, job))
  {
    hide Settle, Step;
    var o := Opening(processes);
    FileLoads(processes, w);
    ClassStarts(processes, w);
    EventsPolled(processes, w, job);
    assert o[..2][..1] == o[..1] && o[..1][..0] == [];
    assert Run(o[..1], w) == Ok(Loaded(Plain(processes)));
    assert Run(o[..2], w) == Ok(Launched(Plain(processes), w));
  }

  /** After the opening a job with a security process has it, and the process is not yet set up. */
  lemma SecurityReached(w: World)
    ensures Run(Opening({SecurityProcess}), w).Ok?
    ensures var s := Run(Opening({SecurityProcess}), w).value;
            LiveJob(s, 0) && s.jobs[0].state.Security? && SecurityProcess in s.jobs[0].setup
  {
    hide Run, Appended, ClassEnvironment;
    var config := Plain({SecurityProcess});
    var job := Starter(config, w).(state := Security, procs := {SecurityProcess}, setup := {SecurityProcess});
    var spawning := job.(state := SecuritySpawning);
    assert {} + {SecurityProcess} == {SecurityProcess};
    assert Enter(config, Starter(config, w), SecuritySpawning, CHANCE) == Ok(Entry(spawning, Nothing, Security));
    assert Enter(config, spawning, Security, CHANCE) == Ok(Entry(job, Nothing, Security));
    assert Settle(config, spawning, Security, CHANCE) == Ok(Rest(job, Nothing));
    OpeningRuns({SecurityProcess}, w, job);
  }

  const SCRIPTED := {MainProcess, PostStartProcess}

  /** The job in the given state with these processes. */
  function Later(w: World, goal: Goal, state: JobState, procs: set<Process>, setup: set<Process>): Job {
    Starter(Plain(SCRIPTED), w).(goal := goal, state := state, procs := procs, setup := setup)
  }

  lemma SpawnedReached(w: World)
    ensures Run(Opening(SCRIPTED), w) ==
            Ok(Moved(Plain(SCRIPTED), w, Later(w, Start, Spawned, {MainProcess}, {MainProcess})))
  {
    hide Run, Appended, ClassEnvironment;
    var config := Plain(SCRIPTED);
    var job := Later(w, Start, Spawned, {MainProcess}, {MainProcess});
    assert {} + {MainProcess} == {MainProcess};
    assert Settle(config, Later(w, Start, Spawning, {MainProcess}, {MainProcess}), Spawned, CHANCE) ==
      Ok(Rest(job, Nothing));
    assert Settle(config, Later(w, Start, PreStart, {}, {}), Spawning, CHANCE) == Ok(Rest(job, Nothing));
    assert Settle(config, Later(w, Start, PreStarting, {}, {}), PreStart, CHANCE) == Ok(Rest(job, Nothing));
    assert Settle(config, Later(w, Start, Security, {}, {}), PreStarting, CHANCE) == Ok(Rest(job, Nothing));
    assert Settle(config, Later(w, Start, SecuritySpawning, {}, {}), Security, CHANCE) == Ok(Rest(job, Nothing));
    assert Settle(config, Starter(config, w), SecuritySpawning, CHANCE) == Ok(Rest(job, Nothing));
    OpeningRuns(SCRIPTED, w, job);
  }

  /** The main process is up, and the post-start script runs. */
  lemma MainUp(w: World)
    ensures Step(Moved(Plain(SCRIPTED), w, Later(w, Start, Spawned, {MainProcess}, {MainProcess})),
            SetupSucceeded(0, MainProcess, LUCK), w)
            == Ok(Moved(Plain(SCRIPTED), w, Later(w, Start, PostStart, SCRIPTED, {PostStartProcess})))
  {
    hide AdvanceJob, Appended, ClassEnvironment, Poll, LoadFile, ReloadFile, RemoveFile, StartFromClass, Terminated,
      ChildError, Swapped;
    var config := Plain(SCRIPTED);
    var a := Later(w, Start, Spawned, {MainProcess}, {});
    var s := Moved(config, w, Later(w, Start, Spawned, {MainProcess}, {MainProcess}));
    assert {MainProcess} - {MainProcess} == {};
    assert SetJob(s, 0, a) == Moved(config, w, a);
    MainAdvances(w);
  }

  lemma MainAdvances(w: World)
    ensures AdvanceJob(Moved(Plain(SCRIPTED), w, Later(w, Start, Spawned, {MainProcess}, {})), 0, w, LUCK)
            == Ok(Moved(Plain(SCRIPTED), w, Later(w, Start, PostStart, SCRIPTED, {PostStartProcess})))
  {
    hide Settle, Appended, ClassEnvironment;
    var config := Plain(SCRIPTED);
    var a, b := Later(w, Start, Spawned, {MainProcess}, {}), Later(w, Start, PostStart, SCRIPTED, {PostStartProcess});
    var s := Moved(config, w, a);
    assert SetJob(s, 0, a) == s && SetJob(s, 0, b) == Moved(config, w, b);
    ScriptStarts(w);
  }

  lemma ScriptStarts(w: World)
    ensures Settle(Plain(SCRIPTED), Later(w, Start, Spawned, {MainProcess}, {}), PostStarting, CHANCE)
            == Ok(Rest(Later(w, Start, PostStart, SCRIPTED, {PostStartProcess}), Nothing))
  {
    hide Appended, ClassEnvironment;
    var config := Plain(SCRIPTED);
    var b := Later(w, Start, PostStart, SCRIPTED, {PostStartProcess});
    assert {MainProcess} + {PostStartProcess} == SCRIPTED && {} + {PostStartProcess} == {PostStartProcess};
    assert Settle(config, b.(state := PostStarting), PostStart, CHANCE) == Ok(Rest(b, Nothing));
  }

  lemma ScriptUp(w: World)
    ensures Step(Moved(Plain(SCRIPTED), w, Later(w, Start, PostStart, SCRIPTED, {PostStartProcess})),
            SetupSucceeded(0, PostStartProcess, LUCK), w)
            == Ok(Moved(Plain(SCRIPTED), w, Later(w, Start, PostStart, SCRIPTED, {})))
  {
    hide AdvanceJob, Appended, ClassEnvironment, Poll, LoadFile, ReloadFile, RemoveFile, StartFromClass, Terminated,
      ChildError, Swapped;
    var config := Plain(SCRIPTED);
    var b := Later(w, Start, PostStart, SCRIPTED, {});
    assert {PostStartProcess} - {PostStartProcess} == {};
    assert SetJob(Moved(config, w, Later(w, Start, PostStart, SCRIPTED, {PostStartProcess})), 0, b) ==
      Moved(config, w, b);
  }

  /** The main process ends, and the job waits for the script to end before it stops. */
  lemma MainEnds(w: World)
    ensures Step(Moved(Plain(SCRIPTED), w, Later(w, Start, PostStart, SCRIPTED, {})),
            Died(0, MainProcess, 0, 0, false, LUCK), w)
            == Ok(Moved(Plain(SCRIPTED), w, Later(w, Stop, PostStart, {PostStartProcess}, {})))
  {
    hide AdvanceJob, Appended, ClassEnvironment, Poll, LoadFile, ReloadFile, RemoveFile, StartFromClass, ChildReady,
      ChildError, Swapped;
    var config := Plain(SCRIPTED);
    var a, b := Later(w, Start, PostStart, SCRIPTED, {}), Later(w, Start, PostStart, {PostStartProcess}, {});
    var c := Later(w, Stop, PostStart, {PostStartProcess}, {});
    assert SCRIPTED - {MainProcess} == {PostStartProcess} && {} - {MainProcess} == {};
    assert Death(config, a, MainProcess, 0, 0, false) == Ok(Verdict(a, false, true, false, false, false));
    assert SetJob(Moved(config, w, a), 0, a) == Moved(config, w, a);
    assert Reaped(a, MainProcess) == b;
    assert SetJob(Moved(config, w, a), 0, b) == Moved(config, w, b);
    assert SetJob(Moved(config, w, b), 0, c) == Moved(config, w, c);
  }

  function Losing(): seq<Input> {
    Opening(SCRIPTED) + [SetupSucceeded(0, MainProcess, LUCK)] + [SetupSucceeded(0, PostStartProcess, LUCK)]
    + [Died(0, MainProcess, 0, 0, false, LUCK)]
  }

  lemma RunOneMore(inputs: seq<Input>, input: Input, w: World)
    requires Run(inputs, w).Ok?
    ensures Run(inputs + [input], w) == Step(Run(inputs, w).value, input, w)
  {
    hide Step;
    assert (inputs + [input])[..|inputs|] == inputs;
  }

  /** The job waits for its script to end before it stops, its main process gone. */
  lemma MainLost(w: World)
    ensures Run(Losing(), w).Ok?
    ensures var s := Run(Losing(), w).value;
            && LiveJob(s, 0) && s.jobs[0].goal.Stop? && PostStartProcess in s.jobs[0].procs
            && PostStartProcess !in s.jobs[0].setup
            && MainProcess !in s.jobs[0].procs
            && LiveClass(s, s.jobs[0].cls) && MainProcess in s.classes[s.jobs[0].cls].config.processes
  {
    hide Run, Step, Appended, ClassEnvironment;
    SpawnedReached(w);
    MainUp(w);
    ScriptUp(w);
    MainEnds(w);
    var o := Opening(SCRIPTED);
    RunOneMore(o, SetupSucceeded(0, MainProcess, LUCK), w);
    RunOneMore(o + [SetupSucceeded(0, MainProcess, LUCK)], SetupSucceeded(0, PostStartProcess, LUCK), w);
    RunOneMore(o + [SetupSucceeded(0, MainProcess, LUCK)] + [SetupSucceeded(0, PostStartProcess, LUCK)],
      Died(0, MainProcess, 0, 0, false, LUCK), w);
  }

  // ---- An event that does not arrive ----

  /** Nothing is set, and a pattern matches the events of its name. */
  const NOTHING := World((name: string, args: seq<string>, what: Occurrence, env: Env) => name == what.name, [], map[],
                         (config: Config, job: Job, stop: bool) => [])

  const LEAF := Leaf("go", [], false, None)
  const GO := Occurrence("go", [])

  /** Its instances are named after a variable that nobody sets. */
  const FIRST := Plain({}).(name := "first", instance := "$X")
  const SECOND := Plain({}).(name := "second")

  function Expecting(config: Config): JobClass { JobClass(true, config, Some(LEAF), [], false) }

  lemma FirstLoads()
    ensures Step(INITIAL, FileAppeared(0, FIRST, Some(LEAF)), NOTHING) ==
            Ok(Sys([], [Expecting(FIRST)], [], [], [0], [0], []))
  {
    var n := NewClass(INITIAL, 0, FIRST, Some(LEAF));
    assert n == Sys([], [Expecting(FIRST)], [], [], [], [0], []) by {
      assert INITIAL.files[..0] + [0] + INITIAL.files[0..] == [0];
    }
    assert Select(n, "first") == Some(0) && Registered(n, "first") == None;
    assert n.registered + [0] == [0];
  }

  function Both(): Sys { Sys([], [Expecting(FIRST), Expecting(SECOND)], [], [], [0, 1], [0, 1], []) }

  lemma SecondLoads()
    ensures Step(Sys([], [Expecting(FIRST)], [], [], [0], [0], []), FileAppeared(1, SECOND, Some(LEAF)), NOTHING) ==
            Ok(Both())
  {
    var s := Sys([], [Expecting(FIRST)], [], [], [0], [0], []);
    var n := NewClass(s, 1, SECOND, Some(LEAF));
    assert n == Sys([], [Expecting(FIRST), Expecting(SECOND)], [], [], [0], [0, 1], []) by {
      assert s.files[..1] + [1] + s.files[1..] == [0, 1];
    }
    assert FIRST.name[0] == 'f' && SECOND.name[0] == 's';
    SecondSelected(n);
    assert n.registered + [1] == [0, 1];
  }

  lemma SecondSelected(n: Sys)
    requires n == Sys([], [Expecting(FIRST), Expecting(SECOND)], [], [], [0], [0, 1], [])
    ensures Select(n, "second") == Some(1) && Registered(n, "second") == None
  {
    assert "first"[0] != "second"[0];
    assert [0, 1][1..] == [1] && [0][1..] == [];
    assert n.classes[0].config.name == "first";
    assert Named(n, [], "second") == None;
    assert Named(n, [0], "second") == None;
    assert Named(n, [1], "second") == Some(1);
  }

  /** The event in the given stage. */
  function Going(progress: Progress, blockers: nat,
    live: bool): Event { Event(live, GO, progress, false, blockers, []) }

  function Gone(progress: Progress, live: bool, queue: seq<EventId>, history: seq<Act>): Sys {
    Sys([], [Expecting(FIRST), Expecting(SECOND)], [Going(progress, 0, live)], queue, [0, 1], [0, 1], history)
  }

  lemma Emitted()
    ensures Step(Both(), Emit(GO), NOTHING) == Ok(Gone(Pending, true, [0], []))
  {
    assert Both().events + [Going(Pending, 0, true)] == [Going(Pending, 0, true)] && Both().queue + [0] == [0];
  }

  lemma UnsetName(table: Env)
    requires Get(table, "X") == None
    ensures Expansion.Expand("$X", table).Err?
  {
    Expansion.ReadSimple("X", "", "");
    assert "$" + "X" + "" == "$X";
  }

  lemma NothingInherited()
    ensures ClassEnvironment(FIRST, NOTHING) == []
  {
  }

  /** The name of the first class's instance cannot be told. */
  lemma NoName(s: Sys, t: Cond)
    requires t == Leaf("go", [], true, Some(0)) && |s.events| == 1 && s.events[0].what == GO
    ensures Expansion.Expand("$X",
            Collected(ClassEnvironment(FIRST, NOTHING), t, Described(s.events), "UPSTART_EVENTS", map[])).Err?
  {
    hide Collected, ClassEnvironment, Expansion.Expand;
    NothingInherited();
    CollectedMeaning([], t, Described(s.events), "UPSTART_EVENTS", map[], "X");
    assert Gathered(t) == [0] && Variables([0], Described(s.events)) == [];
    UnsetName(Collected([], t, Described(s.events), "UPSTART_EVENTS", map[]));
  }

  lemma FirstFails()
    ensures EventPending(Gone(Pending, true, [0], []), 0, NOTHING, LUCK) == Ok(Gone(Handling, true, [0], [Offered(0)]))
  {
    hide OfferStart;
    var s, s0 := Gone(Pending, true, [0], []), Gone(Handling, true, [0], [Offered(0)]);
    assert s.events[0 := Going(Handling, 0, true)] == s0.events && s.history + [Offered(0)] == s0.history;
    FirstOffered(s0);
    assert OfferStops(s0, 0, [], NOTHING, LUCK) == Ok(s0);
    assert OfferAll(s0, 0, [0, 1], NOTHING, LUCK) == Ok(s0);
  }

  const MET := Leaf("go", [], true, Some(0))

  lemma LeafMet()
    ensures Handle(LEAF, 0, HitBy(NOTHING, GO, [])) == MET && Taken(LEAF, HitBy(NOTHING, GO, [])) == 1
  {
    assert HitBy(NOTHING, GO, [])("go", []);
  }

  /** The first class holds the event. */
  function Holding(s: Sys): Sys {
    s.(classes := [Expecting(FIRST).(startOn := Some(MET)), Expecting(SECOND)], events := [Going(Handling, 1, true)])
  }

  lemma FirstHolds(s: Sys)
    requires s == Gone(Handling, true, [0], [Offered(0)])
    ensures Block(SetClass(s, 0, s.classes[0].(startOn := Some(MET))), 0, 1) == Ok(Holding(s))
  {
    assert s.classes[0 := s.classes[0].(startOn := Some(MET))] == Holding(s).classes;
    assert s.events[0 := s.events[0].(blockers := 1)] == Holding(s).events;
  }

  lemma FirstOffered(s: Sys)
    requires s == Gone(Handling, true, [0], [Offered(0)])
    ensures OfferStart(s, 0, 0, NOTHING, LUCK) == Ok(Inducted(s, false))
  {
    hide Induct, Handle, Taken, Block;
    LeafMet();
    FirstHolds(s);
    FirstResets(s, Holding(s), MET);
  }

  lemma FirstResets(s0: Sys, s1: Sys, t: Cond)
    requires s0 == Gone(Handling, true, [0], [Offered(0)]) && t == Leaf("go", [], true, Some(0))
    requires s1 ==
             s0.(classes := [Expecting(FIRST).(startOn := Some(t)), Expecting(SECOND)],
               events := [Going(Handling, 1, true)])
    ensures Induct(s1, 0, t, NOTHING, LUCK) == Ok(Inducted(s0, false))
  {
    hide Collected, ClassEnvironment;
    NoName(s1, t);
    var s2 := SetClass(s1, 0, Expecting(FIRST));
    assert s2.classes == s0.classes;
    assert Held(t) == [0] && Reset(t) == LEAF;
    assert Unblock(s2, 0) == Ok(s0) by { assert s2.events[0 := Going(Handling, 0, true)] == s0.events; }
    assert [0][1..] == [];
    assert UnblockAll(s0, []) == Ok(s0);
    assert UnblockAll(s2, [0]) == Ok(s0);
  }

  lemma EventFreed()
    ensures Step(Gone(Pending, true, [0], []), PollEvents(3, LUCK), NOTHING) ==
            Ok(Gone(Finished, false, [], [Offered(0), Freed(0)]))
  {
    hide EventPending, AdvanceJob;
    FirstFails();
    var s, r := Gone(Handling, true, [0], [Offered(0)]), Gone(Finished, false, [], [Offered(0), Freed(0)]);
    var s1 := SetEvent(s, 0, s.events[0].(progress := Finished));
    assert s1 == Gone(Finished, true, [0], [Offered(0)]);
    assert WakeAll(s1, 0, NOTHING, LUCK, 0) == Ok(s1);
    assert Without([0], 0) == [] && s1.events[0 := Going(Finished, 0, false)] == r.events;
    assert s1.history + [Freed(0)] == r.history;
    assert EventFinished(s1, 0, NOTHING, LUCK) == Ok(r);
    assert Poll(r, 0, false, 1, NOTHING, LUCK) == Ok(Polled(r, true));
    assert Poll(r, 0, true, 2, NOTHING, LUCK) == Ok(Polled(r, true));
  }

  function Missing(): seq<Input> {
    [FileAppeared(0, FIRST, Some(LEAF))] + [FileAppeared(1, SECOND, Some(LEAF))] + [Emit(GO)] + [PollEvents(3, LUCK)]
  }

  lemma EventComes()
    ensures Run(Missing()[..3], NOTHING) == Ok(Gone(Pending, true, [0], []))
  {
    hide Run, Step;
    var a := [FileAppeared(0, FIRST, Some(LEAF))];
    var b := a + [FileAppeared(1, SECOND, Some(LEAF))];
    RunNothing(NOTHING);
    assert [] + a == a;
    RunOneMore([], a[0], NOTHING);
    FirstLoads();
    RunOneMore(a, FileAppeared(1, SECOND, Some(LEAF)), NOTHING);
    SecondLoads();
    RunOneMore(b, Emit(GO), NOTHING);
    Emitted();
    assert Missing()[..3] == b + [Emit(GO)];
  }

  /** The event has come and gone, and no job was started. */
  lemma EventComesAndGoes()
    ensures Run(Missing(), NOTHING) == Ok(Gone(Finished, false, [], [Offered(0), Freed(0)]))
  {
    hide Run, Step;
    EventComes();
    RunOneMore(Missing()[..3], PollEvents(3, LUCK), NOTHING);
    assert Missing() == Missing()[..3] + [PollEvents(3, LUCK)];
    EventFreed();
  }

  lemma RunNothing(w: World)
    ensures Run([], w) == Ok(INITIAL)
  {
  }
}

// The client store's simulation pipeline: edits, a debounce timer, and runs
// whose completions interleave with both in any order.
module ResultStore {
  import opened Options

  // Plans, results and curves are compared and stored, never looked into, so a
  // number stands for each distinct value.
  type Plan = nat
  type SimulationResult = nat
  type Curves = nat

  /** A simulation in flight: the plan and counters it captured when it started. */
  datatype Run = Run(plan: Plan, generation: nat, controller: nat)

  /**
   * The store fields the pipeline touches, the module-level counters beside it,
   * and the runs still in flight. An abort controller is its own number: the
   * ones below the active one have been aborted.
   */
  datatype State = State(
    plan: Plan,
    simulationResult: Option<SimulationResult>,
    simulationPlan: Option<Plan>,
    simulationError: bool,
    simulationPending: bool,
    isSimulatingMain: bool,
    curves: Option<Curves>,
    sensitivityPending: bool,
    isSimulatingSensitivities: bool,
    timerArmed: bool,
    mainGeneration: nat,
    sensitivityGeneration: nat,
    activeController: nat,
    mainRuns: set<Run>,
    sensitivityRuns: set<Run>)

  /** The outside world: what an engine returns for a plan, and which plans are valid. */
  datatype World = World(engine: Plan -> SimulationResult, sweep: Plan -> Curves, valid: Plan -> bool)

  datatype Event =
    | Edit(plan: Plan)
    | ChangeEngine
    | TimerFires
    | StartMain
    | MainSucceeds(run: Run)
    | MainFails(run: Run)
    | StartSensitivities
    | SensitivitiesSucceed(run: Run)
    | SensitivitiesFail(run: Run)

  // ---- Specification: one event ----------------------------------------------

  /** Abort what is in flight, make its completions stale, and re-arm the debounce. */
  function Rescheduled(s: State): State {
    s.(activeController := s.activeController + 1,
       mainGeneration := s.mainGeneration + 1,
       sensitivityGeneration := s.sensitivityGeneration + 1,
       timerArmed := true)
  }

  /** Cancel obsolete work and reschedule; results survive. */
  function Invalidated(s: State): State {
    Rescheduled(s).(
       simulationError := false,
       simulationPending := true,
       sensitivityPending := true,
       isSimulatingMain := false,
       isSimulatingSensitivities := false)
  }

  function MainStarted(s: State): State {
    var generation := s.mainGeneration + 1;
    s.(mainGeneration := generation,
       mainRuns := s.mainRuns + {Run(s.plan, generation, s.activeController)},
       isSimulatingMain := true,
       simulationError := false,
       simulationPending := true)
  }

  function Fired(s: State, w: World): State {
    if !s.timerArmed then s
    else if !w.valid(s.plan) then s.(timerArmed := false, simulationError := true, simulationPending := false)
    else MainStarted(s).(timerArmed := false)
  }

  function MainDone(s: State, run: Run, w: World): State {
    if run !in s.mainRuns then s
    else
      var left := s.(mainRuns := s.mainRuns - {run});
      if run.generation != s.mainGeneration then left
      else
        left.(simulationResult := Some(w.engine(run.plan)), simulationPlan := Some(run.plan),
              simulationError := false, isSimulatingMain := false, simulationPending := false)
  }

  function Aborted(s: State, run: Run): bool {
    run.controller != s.activeController
  }

  function MainFailed(s: State, run: Run): State {
    if run !in s.mainRuns then s
    else
      var left := s.(mainRuns := s.mainRuns - {run});
      if run.generation != s.mainGeneration || Aborted(s, run) then left
      else
        left.(isSimulatingMain := false, simulationPending := false, simulationResult := None, simulationPlan := None,
              simulationError := true)
  }

  function SensitivitiesStarted(s: State, w: World): State {
    if s.isSimulatingSensitivities || !w.valid(s.plan) then s
    else
      var generation := s.sensitivityGeneration + 1;
      s.(sensitivityGeneration := generation,
         sensitivityRuns := s.sensitivityRuns + {Run(s.plan, generation, s.activeController)},
         isSimulatingSensitivities := true, sensitivityPending := true)
  }

  function SensitivitiesDone(s: State, run: Run, w: World): State {
    if run !in s.sensitivityRuns then s
    else
      var left := s.(sensitivityRuns := s.sensitivityRuns - {run});
      if run.generation != s.sensitivityGeneration then left
      else left.(curves := Some(w.sweep(run.plan)), isSimulatingSensitivities := false, sensitivityPending := false)
  }

  function SensitivitiesFailed(s: State, run: Run): State {
    if run !in s.sensitivityRuns then s
    else
      var left := s.(sensitivityRuns := s.sensitivityRuns - {run});
      if run.generation != s.sensitivityGeneration || Aborted(s, run) then left
      else left.(curves := None, isSimulatingSensitivities := false, sensitivityPending := false)
  }

  function Step(s: State, e: Event, w: World): State {
    match e
    case Edit(plan) => Invalidated(s).(plan := plan)
    case ChangeEngine => Invalidated(s)
    case TimerFires => Fired(s, w)
    case StartMain => MainStarted(s)
    case MainSucceeds(run) => MainDone(s, run, w)
    case MainFails(run) => MainFailed(s, run)
    case StartSensitivities => SensitivitiesStarted(s, w)
    case SensitivitiesSucceed(run) => SensitivitiesDone(s, run, w)
    case SensitivitiesFail(run) => SensitivitiesFailed(s, run)
  }

  function After(s: State, events: seq<Event>, w: World): State
    decreases |events|
  {
    if |events| == 0 then s
    else Step(After(s, events[..|events| - 1], w), events[|events| - 1], w)
  }

  function Initial(plan: Plan): State {
    State(plan, None, None, false, false, false, None, false, false, false, 0, 0, 0, {}, {})
  }

  // ---- What the store promises -------------------------------------------------

  /** A stored result is the engine's output for the plan stored beside it. */
  ghost predicate ResultIsPaired(s: State, w: World) {
    match s.simulationPlan
    case None => s.simulationResult == None
    case Some(p) => s.simulationResult == Some(w.engine(p))
  }

  /** Settled and without an error, a stored result is the current plan's. */
  ghost predicate SettledMeansCurrent(s: State) {
    !s.simulationPending && !s.simulationError && s.simulationPlan.Some? ==> s.simulationPlan.value == s.plan
  }

  /** Settled curves are the current plan's too. */
  ghost predicate SettledCurvesAreCurrent(s: State, w: World) {
    !s.sensitivityPending && s.curves.Some? ==> s.curves.value == w.sweep(s.plan)
  }

  /** A run whose completion would still be accepted. */
  ghost predicate InFlight(runs: set<Run>, generation: nat) {
    exists run :: run in runs && run.generation == generation
  }

  /** The store never waits for nothing. */
  ghost predicate PendingMeansWorking(s: State) {
    && (s.simulationPending ==> s.timerArmed || InFlight(s.mainRuns, s.mainGeneration))
    && (s.isSimulatingMain ==> InFlight(s.mainRuns, s.mainGeneration))
    && (s.isSimulatingSensitivities ==> InFlight(s.sensitivityRuns, s.sensitivityGeneration))
  }

  /** A run of the current generation computes the current plan and was not aborted. */
  ghost predicate Current(runs: set<Run>, generation: nat, plan: Plan, controller: nat) {
    forall run | run in runs ::
      run.generation <= generation
      && (run.generation == generation ==> run.plan == plan && run.controller == controller)
  }

  /** No two runs of one kind share a generation. */
  ghost predicate Distinct(runs: set<Run>) {
    forall a, b | a in runs && b in runs && a.generation == b.generation :: a == b
  }

  ghost predicate Invariant(s: State, w: World) {
    && ResultIsPaired(s, w) && SettledMeansCurrent(s) && SettledCurvesAreCurrent(s, w) && PendingMeansWorking(s)
    && Current(s.mainRuns, s.mainGeneration, s.plan, s.activeController) && Distinct(s.mainRuns)
    && Current(s.sensitivityRuns, s.sensitivityGeneration, s.plan, s.activeController) && Distinct(s.sensitivityRuns)
  }

  /** Moving to a fresh generation makes every run in flight a stale one. */
  lemma FreshGeneration(runs: set<Run>, generation: nat, plan: Plan, controller: nat, newPlan: Plan, newController: nat)
    requires Current(runs, generation, plan, controller)
    ensures Current(runs, generation + 1, newPlan, newController)
  {
  }

  /** A start takes a fresh generation, so its run is the current one. */
  lemma Starts(runs: set<Run>, generation: nat, plan: Plan, controller: nat)
    requires Current(runs, generation, plan, controller) && Distinct(runs)
    ensures var started := runs + {Run(plan, generation + 1, controller)};
            && Current(started, generation + 1, plan, controller) && Distinct(started)
            && InFlight(started, generation + 1)
  {
    assert Run(plan, generation + 1, controller) in runs + {Run(plan, generation + 1, controller)};
  }

  /** Dropping one run keeps every fact about the others; a stale one was nobody's current run. */
  lemma Leaves(runs: set<Run>, run: Run, generation: nat, plan: Plan, controller: nat)
    requires Current(runs, generation, plan, controller) && Distinct(runs) && run in runs
    ensures Current(runs - {run}, generation, plan, controller) && Distinct(runs - {run})
    ensures run.generation != generation && InFlight(runs, generation) ==> InFlight(runs - {run}, generation)
    ensures run.generation == generation ==> run.plan == plan && run.controller == controller
  {
    if run.generation != generation && InFlight(runs, generation) {
      var current :| current in runs && current.generation == generation;
      assert current in runs - {run};
    }
  }

  lemma EditKeeps(s: State, plan: Plan, w: World)
    requires Invariant(s, w)
    ensures Invariant(Invalidated(s).(plan := plan), w)
  {
    hide Current;
    hide InFlight;
    hide Distinct;
    FreshGeneration(s.mainRuns, s.mainGeneration, s.plan, s.activeController, plan, s.activeController + 1);
    FreshGeneration(s.sensitivityRuns, s.sensitivityGeneration, s.plan, s.activeController, plan, s.activeController + 1);
  }

  lemma MainStartKeeps(s: State, w: World)
    requires Invariant(s, w)
    ensures Invariant(MainStarted(s), w) && InFlight(MainStarted(s).mainRuns, MainStarted(s).mainGeneration)
  {
    hide Current;
    hide InFlight;
    hide Distinct;
    Starts(s.mainRuns, s.mainGeneration, s.plan, s.activeController);
  }

  lemma FiringKeeps(s: State, w: World)
    requires Invariant(s, w)
    ensures Invariant(Fired(s, w), w)
  {
    hide Current;
    hide InFlight;
    hide Distinct;
    MainStartKeeps(s, w);
  }

  /** A completion of the current generation settles the store; a stale one only leaves. */
  lemma MainCompletionKeeps(s: State, run: Run, w: World)
    requires Invariant(s, w)
    ensures Invariant(MainDone(s, run, w), w) && Invariant(MainFailed(s, run), w)
  {
    hide Current;
    hide InFlight;
    hide Distinct;
    if run in s.mainRuns {
      Leaves(s.mainRuns, run, s.mainGeneration, s.plan, s.activeController);
    }
  }

  lemma SensitivityStartKeeps(s: State, w: World)
    requires Invariant(s, w)
    ensures Invariant(SensitivitiesStarted(s, w), w)
  {
    hide Current;
    hide InFlight;
    hide Distinct;
    Starts(s.sensitivityRuns, s.sensitivityGeneration, s.plan, s.activeController);
  }

  lemma SensitivityCompletionKeeps(s: State, run: Run, w: World)
    requires Invariant(s, w)
    ensures Invariant(SensitivitiesDone(s, run, w), w) && Invariant(SensitivitiesFailed(s, run), w)
  {
    hide Current;
    hide InFlight;
    hide Distinct;
    if run in s.sensitivityRuns {
      Leaves(s.sensitivityRuns, run, s.sensitivityGeneration, s.plan, s.activeController);
    }
  }

  lemma StepKeeps(s: State, e: Event, w: World)
    requires Invariant(s, w)
    ensures Invariant(Step(s, e, w), w)
  {
    hide Invariant;
    match e
    case Edit(plan) => EditKeeps(s, plan, w);
    case ChangeEngine => EditKeeps(s, s.plan, w);
    case TimerFires => FiringKeeps(s, w);
    case StartMain => MainStartKeeps(s, w);
    case MainSucceeds(run) => MainCompletionKeeps(s, run, w);
    case MainFails(run) => MainCompletionKeeps(s, run, w);
    case StartSensitivities => SensitivityStartKeeps(s, w);
    case SensitivitiesSucceed(run) => SensitivityCompletionKeeps(s, run, w);
    case SensitivitiesFail(run) => SensitivityCompletionKeeps(s, run, w);
  }

  /**
   * In every interleaving of edits, debounce firings, run starts and
   * completions: a stored result is the engine's output for the plan stored with
   * it; once nothing is pending and no error stands it belongs to the current
   * plan; and pending always means a timer is armed or a run that will still be
   * accepted is in flight.
   */
  lemma {:induction false} EveryInterleaving(plan: Plan, events: seq<Event>, w: World)
    ensures var s := After(Initial(plan), events, w);
            && ResultIsPaired(s, w) && SettledMeansCurrent(s) && SettledCurvesAreCurrent(s, w)
            && PendingMeansWorking(s) && Invariant(s, w)
    decreases |events|
  {
    if |events| > 0 {
      hide Step;
      EveryInterleaving(plan, events[..|events| - 1], w);
      StepKeeps(After(Initial(plan), events[..|events| - 1], w), events[|events| - 1], w);
    }
  }

  /** Events that make a run obsolete: an edit, a switch of engine, or another start by hand. */
  predicate Obsoletes(e: Event) {
    e.Edit? || e.ChangeEngine? || e.StartMain?
  }

  /** A run the store is waiting for. */
  predicate Awaits(s: State, run: Run) {
    && run in s.mainRuns && run.generation == s.mainGeneration && run.plan == s.plan && !s.timerArmed
  }

  /** Settled on a plan, with nothing left that could change it. */
  ghost predicate SettledOn(s: State, plan: Plan, w: World) {
    && !s.simulationPending && !s.simulationError && !s.timerArmed && s.plan == plan
    && s.simulationPlan == Some(plan) && s.simulationResult == Some(w.engine(plan))
    && !InFlight(s.mainRuns, s.mainGeneration)
  }

  lemma {:induction false} StaysAwaited(s: State, run: Run, events: seq<Event>, w: World)
    requires Invariant(s, w) && Awaits(s, run)
    requires forall e | e in events :: !Obsoletes(e) && e != MainSucceeds(run) && e != MainFails(run)
    ensures Invariant(After(s, events, w), w) && Awaits(After(s, events, w), run) && After(s, events, w).plan == s.plan
    decreases |events|
  {
    if |events| > 0 {
      var n := |events| - 1;
      StaysAwaited(s, run, events[..n], w);
      StepKeeps(After(s, events[..n], w), events[n], w);
      AwaitedStep(After(s, events[..n], w), run, events[n], w);
      hide Invariant;
      hide Awaits;
      hide Step;
    }
  }

  lemma AwaitedStep(s: State, run: Run, e: Event, w: World)
    requires Distinct(s.mainRuns) && Awaits(s, run)
    requires !Obsoletes(e) && e != MainSucceeds(run) && e != MainFails(run)
    ensures Awaits(Step(s, e, w), run) && Step(s, e, w).plan == s.plan
  {
    match e
    case MainSucceeds(other) => assert other in s.mainRuns && other.generation == run.generation ==> other == run;
    case MainFails(other) => assert other in s.mainRuns && other.generation == run.generation ==> other == run;
    case _ =>
  }

  lemma {:induction false} StaysSettled(s: State, plan: Plan, events: seq<Event>, w: World)
    requires SettledOn(s, plan, w) && forall e | e in events :: !Obsoletes(e)
    ensures SettledOn(After(s, events, w), plan, w)
    decreases |events|
  {
    if |events| > 0 {
      var n := |events| - 1;
      StaysSettled(s, plan, events[..n], w);
      hide After;
      SettledStep(After(s, events[..n], w), plan, events[n], w);
    }
    hide Step;
    hide SettledOn;
  }

  lemma SettledStep(s: State, plan: Plan, e: Event, w: World)
    requires SettledOn(s, plan, w) && !Obsoletes(e)
    ensures SettledOn(Step(s, e, w), plan, w)
  {
  }

  /** The run a fired timer starts is the one the store then waits for. */
  lemma FiringAwaits(s: State, w: World)
    requires Invariant(s, w) && s.timerArmed && w.valid(s.plan)
    ensures var running := Step(s, TimerFires, w);
            Invariant(running, w) && Awaits(running, Run(s.plan, running.mainGeneration, running.activeController))
            && running.plan == s.plan
  {
    StepKeeps(s, TimerFires, w);
    hide Invariant;
  }

  /** The awaited run is the only one of its generation, so once it is stored nothing else can be. */
  lemma FinishingSettles(s: State, run: Run, w: World)
    requires Invariant(s, w) && Awaits(s, run)
    ensures SettledOn(Step(s, MainSucceeds(run), w), s.plan, w)
  {
  }

  /**
   * From any reachable store, the armed timer and the success of the run it
   * starts settle it on the current plan, whatever stale completions, other
   * failures and sweeps come between; and it stays settled through anything but
   * an edit, a switch of engine or another start.
   */
  lemma FiringAndFinishingSettles(s: State, between: seq<Event>, later: seq<Event>, w: World)
    requires Invariant(s, w) && s.timerArmed && w.valid(s.plan)
    requires var running := Step(s, TimerFires, w);
             var run := Run(s.plan, running.mainGeneration, running.activeController);
             forall e | e in between :: !Obsoletes(e) && e != MainSucceeds(run) && e != MainFails(run)
    requires forall e | e in later :: !Obsoletes(e)
    ensures var running := Step(s, TimerFires, w);
            var run := Run(s.plan, running.mainGeneration, running.activeController);
            SettledOn(After(Step(After(running, between, w), MainSucceeds(run), w), later, w), s.plan, w)
  {
    var running := Step(s, TimerFires, w);
    var run := Run(s.plan, running.mainGeneration, running.activeController);
    FiringAwaits(s, w);
    StaysAwaited(running, run, between, w);
    FinishingSettles(After(running, between, w), run, w);
    StaysSettled(Step(After(running, between, w), MainSucceeds(run), w), s.plan, later, w);
  }

  /** Stopped on a plan by a failure: the error shows, no result stands, and nothing is under way. */
  ghost predicate FailedOn(s: State, plan: Plan) {
    && s.simulationError && !s.simulationPending && !s.isSimulatingMain && !s.timerArmed && s.plan == plan
    && s.simulationPlan == None && s.simulationResult == None
    && !InFlight(s.mainRuns, s.mainGeneration)
  }

  lemma FailingShows(s: State, run: Run, w: World)
    requires Invariant(s, w) && Awaits(s, run)
    ensures FailedOn(Step(s, MainFails(run), w), s.plan)
  {
  }

  lemma {:induction false} StaysFailed(s: State, plan: Plan, events: seq<Event>, w: World)
    requires FailedOn(s, plan) && forall e | e in events :: !Obsoletes(e)
    ensures FailedOn(After(s, events, w), plan)
    decreases |events|
  {
    if |events| > 0 {
      var n := |events| - 1;
      StaysFailed(s, plan, events[..n], w);
      hide After;
      FailedStep(After(s, events[..n], w), plan, events[n], w);
    }
    hide Step;
    hide FailedOn;
  }

  lemma FailedStep(s: State, plan: Plan, e: Event, w: World)
    requires FailedOn(s, plan) && !Obsoletes(e)
    ensures FailedOn(Step(s, e, w), plan)
  {
  }

  /**
   * From any reachable store, if the run the armed timer starts fails instead,
   * the store clears the result and shows the error, whatever came between, and
   * keeps showing it through anything but an edit, a switch of engine or another
   * start.
   */
  lemma FiringAndFailingShows(s: State, between: seq<Event>, later: seq<Event>, w: World)
    requires Invariant(s, w) && s.timerArmed && w.valid(s.plan)
    requires var running := Step(s, TimerFires, w);
             var run := Run(s.plan, running.mainGeneration, running.activeController);
             forall e | e in between :: !Obsoletes(e) && e != MainSucceeds(run) && e != MainFails(run)
    requires forall e | e in later :: !Obsoletes(e)
    ensures var running := Step(s, TimerFires, w);
            var run := Run(s.plan, running.mainGeneration, running.activeController);
            FailedOn(After(Step(After(running, between, w), MainFails(run), w), later, w), s.plan)
  {
    var running := Step(s, TimerFires, w);
    var run := Run(s.plan, running.mainGeneration, running.activeController);
    FiringAwaits(s, w);
    StaysAwaited(running, run, between, w);
    FailingShows(After(running, between, w), run, w);
    StaysFailed(Step(After(running, between, w), MainFails(run), w), s.plan, later, w);
  }

  /** Everything an edit leaves on screen. */
  predicate SameResults(s: State, t: State) {
    s.simulationResult == t.simulationResult && s.simulationPlan == t.simulationPlan && s.curves == t.curves
  }

  /**
   * An edit of any reachable store keeps the last result on screen, asks for a
   * new one, clears the error, and leaves no run in flight that could still be
   * accepted. If the timer then finds the plan invalid, the store says so instead
   * of waiting, and the last result still stands.
   */
  lemma EditAsksAgain(s: State, plan: Plan, w: World)
    requires Invariant(s, w)
    ensures var edited := Step(s, Edit(plan), w);
            && edited.plan == plan && SameResults(s, edited) && edited.timerArmed
            && edited.simulationPending && edited.sensitivityPending && !edited.simulationError
            && !edited.isSimulatingMain && !edited.isSimulatingSensitivities
            && !InFlight(edited.mainRuns, edited.mainGeneration)
            && !InFlight(edited.sensitivityRuns, edited.sensitivityGeneration)
    ensures var fired := Step(Step(s, Edit(plan), w), TimerFires, w);
            && SameResults(s, fired) && !fired.timerArmed && fired.plan == plan
            && (!w.valid(plan) ==> fired.simulationError && !fired.simulationPending && fired.mainRuns == s.mainRuns)
            && (w.valid(plan) ==> fired.simulationPending && fired.isSimulatingMain
                                  && InFlight(fired.mainRuns, fired.mainGeneration))
  {
    StepKeeps(s, Edit(plan), w);
    StepKeeps(Step(s, Edit(plan), w), TimerFires, w);
  }

  /**
   * A sweep of the current generation settles the curves on the current plan or,
   * failing, clears them; either way nothing is pending any more. A stale one
   * changes nothing but the set of runs in flight.
   */
  lemma SweepEnds(s: State, run: Run, w: World)
    requires Invariant(s, w) && run in s.sensitivityRuns
    ensures var done, failed := Step(s, SensitivitiesSucceed(run), w), Step(s, SensitivitiesFail(run), w);
            if run.generation == s.sensitivityGeneration then
              && done.curves == Some(w.sweep(s.plan)) && failed.curves == None
              && !done.sensitivityPending && !done.isSimulatingSensitivities
              && !failed.sensitivityPending && !failed.isSimulatingSensitivities
            else
              done == failed == s.(sensitivityRuns := s.sensitivityRuns - {run})
  {
  }

  /** A sweep started on a valid plan, with none running, is the one that will be accepted. */
  lemma SweepStarts(s: State, w: World)
    requires Invariant(s, w)
    ensures var started := Step(s, StartSensitivities, w);
            if w.valid(s.plan) && !s.isSimulatingSensitivities then
              && started.isSimulatingSensitivities && started.sensitivityPending && SameResults(s, started)
              && Run(s.plan, started.sensitivityGeneration, started.activeController) in started.sensitivityRuns
            else started == s
  {
  }

  // ---- The store as the source updates it ----------------------------------------

  class PlanStore {
    var plan: Plan
    var simulationResult: Option<SimulationResult>
    var simulationPlan: Option<Plan>
    var simulationError: bool
    var simulationPending: bool
    var isSimulatingMain: bool
    var curves: Option<Curves>
    var sensitivityPending: bool
    var isSimulatingSensitivities: bool
    var timerArmed: bool
    var mainGeneration: nat
    var sensitivityGeneration: nat
    var activeController: nat
    var mainRuns: set<Run>
    var sensitivityRuns: set<Run>
    const world: World

    function View(): State
      reads this
    {
      State(plan, simulationResult, simulationPlan, simulationError, simulationPending, isSimulatingMain, curves,
            sensitivityPending, isSimulatingSensitivities, timerArmed, mainGeneration, sensitivityGeneration,
            activeController, mainRuns, sensitivityRuns)
    }

    constructor (plan: Plan, world: World)
      ensures View() == Initial(plan) && this.world == world
    {
      this.plan := plan;
      this.world := world;
      simulationResult, simulationPlan, simulationError := None, None, false;
      simulationPending, isSimulatingMain := false, false;
      curves, sensitivityPending, isSimulatingSensitivities := None, false, false;
      timerArmed, mainGeneration, sensitivityGeneration, activeController := false, 0, 0, 0;
      mainRuns, sensitivityRuns := {}, {};
    }

    method InvalidateResults()
      modifies this
      ensures View() == Invalidated(old(View()))
    {
      Reschedule();
      simulationError, simulationPending, sensitivityPending := false, true, true;
      isSimulatingMain, isSimulatingSensitivities := false, false;
    }

    method Reschedule()
      modifies this
      ensures View() == Rescheduled(old(View()))
    {
      activeController := activeController + 1;
      mainGeneration := mainGeneration + 1;
      sensitivityGeneration := sensitivityGeneration + 1;
      timerArmed := true;
    }

    method ApplyPlan(edited: Plan)
      modifies this
      ensures View() == Invalidated(old(View())).(plan := edited)
    {
      InvalidateResults();
      plan := edited;
    }

    /** Up to the await: capture the plan and a fresh generation. */
    method BeginMain()
      modifies this
      ensures View() == MainStarted(old(View()))
    {
      mainGeneration := mainGeneration + 1;
      mainRuns := mainRuns + {Run(plan, mainGeneration, activeController)};
      isSimulatingMain := true;
      simulationError := false;
      simulationPending := true;
    }

    method OnTimer()
      modifies this
      ensures View() == Fired(old(View()), world)
    {
      if !timerArmed {
        return;
      }
      if !world.valid(plan) {
        simulationError := true;
        simulationPending := false;
        timerArmed := false;
        return;
      }
      BeginMain();
      timerArmed := false;
    }

    /** After the await: a stale generation is discarded. */
    method MainResolved(run: Run)
      modifies this
      ensures View() == MainDone(old(View()), run, world)
    {
      if run !in mainRuns {
        return;
      }
      mainRuns := mainRuns - {run};
      if run.generation != mainGeneration {
        return;
      }
      simulationResult := Some(world.engine(run.plan));
      simulationPlan := Some(run.plan);
      simulationError := false;
      isSimulatingMain := false;
      simulationPending := false;
    }

    method MainRejected(run: Run)
      modifies this
      ensures View() == MainFailed(old(View()), run)
    {
      if run !in mainRuns {
        return;
      }
      mainRuns := mainRuns - {run};
      if run.generation != mainGeneration {
        return;
      }
      if run.controller != activeController {
        return;
      }
      isSimulatingMain := false;
      simulationPending := false;
      simulationResult := None;
      simulationPlan := None;
      simulationError := true;
    }

    method BeginSensitivities()
      modifies this
      ensures View() == SensitivitiesStarted(old(View()), world)
    {
      if isSimulatingSensitivities {
        return;
      }
      if !world.valid(plan) {
        return;
      }
      sensitivityGeneration := sensitivityGeneration + 1;
      sensitivityRuns := sensitivityRuns + {Run(plan, sensitivityGeneration, activeController)};
      isSimulatingSensitivities := true;
      sensitivityPending := true;
    }

    method SensitivitiesResolved(run: Run)
      modifies this
      ensures View() == SensitivitiesDone(old(View()), run, world)
    {
      if run !in sensitivityRuns {
        return;
      }
      sensitivityRuns := sensitivityRuns - {run};
      if run.generation != sensitivityGeneration {
        return;
      }
      curves := Some(world.sweep(run.plan));
      isSimulatingSensitivities := false;
      sensitivityPending := false;
    }

    method SensitivitiesRejected(run: Run)
      modifies this
      ensures View() == SensitivitiesFailed(old(View()), run)
    {
      if run !in sensitivityRuns {
        return;
      }
      sensitivityRuns := sensitivityRuns - {run};
      if run.generation != sensitivityGeneration {
        return;
      }
      if run.controller != activeController {
        return;
      }
      curves := None;
      isSimulatingSensitivities := false;
      sensitivityPending := false;
    }

    /** Any sequence of events, dispatched one at a time. */
    method Dispatch(events: seq<Event>)
      requires View() == Initial(plan)
      modifies this
      ensures View() == After(Initial(old(plan)), events, world)
      ensures Invariant(View(), world)
    {
      hide Step;
      hide Invariant;
      ghost var start := plan;
      for i := 0 to |events|
        invariant View() == After(Initial(start), events[..i], world)
      {
        assert events[..i + 1][..i] == events[..i];
        HandleOne(events[i]);
      }
      assert events[..|events|] == events;
      EveryInterleaving(start, events, world);
    }

    method HandleOne(e: Event)
      modifies this
      ensures View() == Step(old(View()), e, world)
    {
      match e
      case Edit(edited) => ApplyPlan(edited);
      case ChangeEngine => InvalidateResults();
      case TimerFires => OnTimer();
      case StartMain => BeginMain();
      case MainSucceeds(run) => MainResolved(run);
      case MainFails(run) => MainRejected(run);
      case StartSensitivities => BeginSensitivities();
      case SensitivitiesSucceed(run) => SensitivitiesResolved(run);
      case SensitivitiesFail(run) => SensitivitiesRejected(run);
    }
  }
}
